/** Form tests: per form, a valid submission, an empty submission, an
 *  invalid-email submission and max-length overflows, with values drawn
 *  from a seeded linear congruential sequence so that a seed reproduces
 *  the same tests. */
module FormGenerator {
  import opened Wrappers
  import opened Text
  import opened Seqs
  import opened GraphModel
  import opened PlanModel

  datatype FormOptions = FormOptions(seed: Option<int>, includeInvalidCases: Option<bool>, includeBoundaryCases: Option<bool>)

  /** JavaScript `%` for a positive divisor: the sign follows the dividend. */
  function JsRem(a: int, b: int): (r: int)
    requires b > 0
    ensures a >= 0 ==> 0 <= r < b
    ensures a < 0 ==> -b < r <= 0
  {
    if a >= 0 then a % b else -((-a) % b)
  }

  /** The number drawn at position `sequence` (already advanced). */
  function NextNumber(seed: int, sequence: int, min: int, max: int): int
    requires min <= max
  {
    min + JsRem(JsRem(seed * 9301 + sequence * 49297, 233280), max - min + 1)
  }

  /** For a non-negative seed every drawn number lies in `[min, max]`. */
  lemma NextNumberInRange(seed: int, sequence: int, min: int, max: int)
    requires seed >= 0 && sequence >= 0 && min <= max
    ensures min <= NextNumber(seed, sequence, min, max) <= max
  {
    var raw := seed * 9301 + sequence * 49297;
    assert raw >= 0;
  }

  /** `prefix-hash(seed-key)`. */
  function MakeId(seed: int, prefix: string, key: string, hash: string -> string): string {
    prefix + "-" + hash(IntToString(seed) + "-" + key)
  }

  /** The value table of `generateValidValue`, given its five drawn
   *  numbers. Every entry of the table is non-empty, so the
   *  `'deterministic-value'` fallback only serves types outside it. */
  function ValueTable(field: FormField, n1: int, n2: int, n3: int, n4: int, n5: int): string {
    if field.ftype == "text" then "user-" + IntToString(n1)
    else if field.ftype == "email" then "user" + IntToString(n2) + "@example.com"
    else if field.ftype == "password" then "Secure-" + IntToString(n3) + "!"
    else if field.ftype == "tel" then "+90555" + IntToString(n4)
    else if field.ftype == "number" then IntToString(n5)
    else if field.ftype == "url" then "https://example.com/path"
    else if field.ftype == "date" then "2026-02-15"
    else if field.ftype == "select" then OrElse(field.labelText, OrElse(Some(field.name), "option-1"))
    else if field.ftype == "checkbox" then "true"
    else if field.ftype == "radio" then OrElse(field.labelText, OrElse(Some(field.name), "option-a"))
    else "deterministic-value"
  }

  /** The valid value for a field, with the five numbers drawn at
   *  positions `s + 1` .. `s + 5` whatever the field's type. */
  function ValidValue(field: FormField, seed: int, s: int): string {
    ValueTable(field, NextNumber(seed, s + 1, 1000, 9999), NextNumber(seed, s + 2, 10, 99),
      NextNumber(seed, s + 3, 1000, 9999), NextNumber(seed, s + 4, 1000000, 9999999), NextNumber(seed, s + 5, 1, 99))
  }

  function BaseStep(node: AppNode, baseUrl: string, seed: int, hash: string -> string): TestStep {
    MkStep(MakeId(seed, "step", node.id + "-navigate", hash), Navigate,
      Some(ByText(PageUrl(node, baseUrl))), None)
  }

  function DefaultAssertions(form: FormDescriptor): seq<Assertion> {
    [Assertion(IsVisible, ByText(form.selector.primary), None, None)]
  }

  function FieldAction(field: FormField): Action {
    if field.ftype == "select" then Select else Fill
  }

  /** The fill step of field `field`, its value drawn after position `s`. */
  function FillStep(form: FormDescriptor, field: FormField, seed: int, s: int, hash: string -> string): TestStep {
    MkStep(MakeId(seed, "step", form.id + "-" + field.name + "-valid", hash), FieldAction(field),
      Some(ByText(field.selector.primary)), Some(ValidValue(field, seed, s)))
  }

  /** One step per field, the k-th built at position `s + 5k`: every field
   *  consumes five draws. */
  function Draws(fields: seq<FormField>, s: int, step: (FormField, int) -> TestStep): (r: seq<TestStep>)
    ensures |r| == |fields|
    decreases |fields|
  {
    if |fields| == 0 then []
    else
      var n := |fields| - 1;
      Draws(fields[..n], s, step) + [step(fields[n], s + 5 * n)]
  }

  lemma DrawsSnoc(fields: seq<FormField>, k: nat, s: int, step: (FormField, int) -> TestStep)
    requires k < |fields|
    ensures Draws(fields[..k + 1], s, step) == Draws(fields[..k], s, step) + [step(fields[k], s + 5 * k)]
  {
    assert fields[..k + 1][..k] == fields[..k];
  }

  /** The k-th step is built from the k-th field at position `s + 5k`. */
  lemma {:induction false} DrawsAt(fields: seq<FormField>, s: int, step: (FormField, int) -> TestStep)
    ensures forall k :: 0 <= k < |fields| ==> Draws(fields, s, step)[k] == step(fields[k], s + 5 * k)
    decreases |fields|
  {
    if |fields| > 0 {
      var n := |fields| - 1;
      DrawsAt(fields[..n], s, step);
      forall k | 0 <= k < n
        ensures Draws(fields, s, step)[k] == step(fields[k], s + 5 * k)
      {
        assert fields[..n][k] == fields[k];
      }
    }
  }

  /** `FillStep` for a given form, seed and hash, as a function of the
   *  field and the position. */
  function FillStepOf(form: FormDescriptor, seed: int, hash: string -> string): (FormField, int) -> TestStep {
    (field, s) => FillStep(form, field, seed, s, hash)
  }

  /** One fill step per field, the k-th drawing after position `s + 5k`. */
  function FillSteps(form: FormDescriptor, fields: seq<FormField>, seed: int, s: int, hash: string -> string): (r: seq<TestStep>)
    ensures |r| == |fields|
  {
    Draws(fields, s, FillStepOf(form, seed, hash))
  }

  function SubmitStep(form: FormDescriptor, seed: int, hash: string -> string): seq<TestStep> {
    if form.submitButton.Some? then
      [MkStep(MakeId(seed, "step", form.id + "-submit", hash), Click,
        Some(ByText(form.submitButton.value.selector.primary)), None)]
    else []
  }

  function PositiveTest(node: AppNode, form: FormDescriptor, baseUrl: string, seed: int, s: int, hash: string -> string): TestCase {
    TestCase(MakeId(seed, "test", node.id + "-" + form.id + "-positive", hash),
      "[Form] " + node.name + " - Valid submission",
      [BaseStep(node, baseUrl, seed, hash)] + FillSteps(form, form.fields, seed, s, hash) + SubmitStep(form, seed, hash),
      DefaultAssertions(form), ["form", "positive", OrElse(node.route, "root")], High, Some(5000))
  }

  /** The submit button's selector, or the generic submit selector. */
  function SubmitSelector(form: FormDescriptor): string {
    if form.submitButton.Some? && form.submitButton.value.selector.primary != "" then
      form.submitButton.value.selector.primary
    else
      "button[type=\"submit\"]"
  }

  function EmptySubmissionTest(node: AppNode, form: FormDescriptor, baseUrl: string, seed: int, hash: string -> string): TestCase {
    TestCase(MakeId(seed, "test", node.id + "-" + form.id + "-empty", hash),
      "[Form] " + node.name + " - Empty submission validation",
      [BaseStep(node, baseUrl, seed, hash),
       MkStep(MakeId(seed, "step", form.id + "-empty-submit", hash), Click, Some(ByText(SubmitSelector(form))), None)],
      DefaultAssertions(form), ["form", "negative", "validation", OrElse(node.route, "root")], Medium, Some(4000))
  }

  predicate IsEmailField(f: FormField) {
    f.ftype == "email"
  }

  /** The invalid-email test, built on the form's first email field. */
  function InvalidTests(node: AppNode, form: FormDescriptor, baseUrl: string, seed: int, hash: string -> string): seq<TestCase> {
    match Find(form.fields, IsEmailField)
    case None => []
    case Some(emailField) =>
      [TestCase(MakeId(seed, "test", node.id + "-" + form.id + "-invalid-email", hash),
        "[Form] " + node.name + " - Invalid email",
        [BaseStep(node, baseUrl, seed, hash),
         MkStep(MakeId(seed, "step", form.id + "-" + emailField.name + "-invalid", hash), Fill,
           Some(ByText(emailField.selector.primary)), Some("invalid-email-format")),
         MkStep(MakeId(seed, "step", form.id + "-invalid-submit", hash), Click, Some(ByText(SubmitSelector(form))), None)],
        DefaultAssertions(form), ["form", "negative", "email", OrElse(node.route, "root")], Medium, Some(4000))]
  }

  /** A field with a usable max length (`!maxLength || maxLength < 1` skips). */
  predicate HasMaxLength(f: FormField) {
    f.constraints.Some? && f.constraints.value.maxLength.Some? && f.constraints.value.maxLength.value >= 1
  }

  function BoundaryTest(node: AppNode, form: FormDescriptor, field: FormField, baseUrl: string, seed: int, hash: string -> string): TestCase
    requires HasMaxLength(field)
  {
    var maxLength := field.constraints.value.maxLength.value;
    TestCase(MakeId(seed, "test", node.id + "-" + form.id + "-" + field.name + "-boundary", hash),
      "[Form] " + node.name + " - " + field.name + " max length boundary",
      [BaseStep(node, baseUrl, seed, hash),
       MkStep(MakeId(seed, "step", form.id + "-" + field.name + "-boundary-overflow", hash), FieldAction(field),
         Some(ByText(field.selector.primary)), Some(Repeat('x', maxLength + 1)))],
      DefaultAssertions(form), ["form", "boundary", OrElse(node.route, "root")], Low, Some(3000))
  }

  function BoundaryTests(node: AppNode, form: FormDescriptor, fields: seq<FormField>, baseUrl: string, seed: int, hash: string -> string): seq<TestCase>
    decreases |fields|
  {
    if |fields| == 0 then []
    else
      var last := fields[|fields| - 1];
      BoundaryTests(node, form, fields[..|fields| - 1], baseUrl, seed, hash)
      + if HasMaxLength(last) then [BoundaryTest(node, form, last, baseUrl, seed, hash)] else []
  }

  /** All tests of one form, in emission order. */
  function FormCaseTests(node: AppNode, form: FormDescriptor, baseUrl: string, seed: int, s: int,
                         options: FormOptions, hash: string -> string): seq<TestCase> {
    [PositiveTest(node, form, baseUrl, seed, s, hash), EmptySubmissionTest(node, form, baseUrl, seed, hash)]
    + (if options.includeInvalidCases != Some(false) then InvalidTests(node, form, baseUrl, seed, hash) else [])
    + (if options.includeBoundaryCases != Some(false) then BoundaryTests(node, form, form.fields, baseUrl, seed, hash) else [])
  }

  /** The sequence position after the forms, starting from `s`: five
   *  draws per field. */
  function FormsEnd(forms: seq<FormDescriptor>, s: int): (r: int)
    ensures s >= 0 ==> r >= s
    decreases |forms|
  {
    if |forms| == 0 then s else FormsEnd(forms[..|forms| - 1], s) + 5 * |forms[|forms| - 1].fields|
  }

  /** The tests of a node's forms, the sequence starting at `s`. */
  function FormsTests(node: AppNode, forms: seq<FormDescriptor>, baseUrl: string, seed: int, s: int,
                      options: FormOptions, hash: string -> string): seq<TestCase>
    decreases |forms|
  {
    if |forms| == 0 then []
    else
      var init := forms[..|forms| - 1];
      FormsTests(node, init, baseUrl, seed, s, options, hash)
      + FormCaseTests(node, forms[|forms| - 1], baseUrl, seed, FormsEnd(init, s), options, hash)
  }

  lemma FormsTestsSnoc(node: AppNode, forms: seq<FormDescriptor>, f: nat, baseUrl: string, seed: int, s: int,
                       options: FormOptions, hash: string -> string)
    requires f < |forms|
    ensures FormsTests(node, forms[..f + 1], baseUrl, seed, s, options, hash)
      == FormsTests(node, forms[..f], baseUrl, seed, s, options, hash)
         + FormCaseTests(node, forms[f], baseUrl, seed, FormsEnd(forms[..f], s), options, hash)
    ensures FormsEnd(forms[..f + 1], s) == FormsEnd(forms[..f], s) + 5 * |forms[f].fields|
  {
    var p := forms[..f + 1];
    assert p[..|p| - 1] == forms[..f];
    assert p[|p| - 1] == forms[f];
  }

  /** The sequence position after the forms of all the nodes. */
  function NodesEnd(nodes: seq<AppNode>): (r: int)
    ensures r >= 0
    decreases |nodes|
  {
    if |nodes| == 0 then 0 else FormsEnd(nodes[|nodes| - 1].forms, NodesEnd(nodes[..|nodes| - 1]))
  }

  function NodesTests(nodes: seq<AppNode>, baseUrl: string, seed: int, options: FormOptions,
                      hash: string -> string): seq<TestCase>
    decreases |nodes|
  {
    if |nodes| == 0 then []
    else
      var init, last := nodes[..|nodes| - 1], nodes[|nodes| - 1];
      NodesTests(init, baseUrl, seed, options, hash)
      + FormsTests(last, last.forms, baseUrl, seed, NodesEnd(init), options, hash)
  }

  predicate HasForms(n: AppNode) {
    |n.forms| > 0
  }

  /** The form tests of a graph under the given options. */
  function FormTests(g: AppGraph, options: FormOptions, hash: string -> string): seq<TestCase> {
    NodesTests(Filter(g.nodes, HasForms), g.baseUrl, options.seed.GetOr(42), options, hash)
  }

  /** Every valid value is non-empty (so `|| 'deterministic-value'` only
   *  serves types outside the table); for a non-negative seed, an email
   *  value is `user<10..99>@example.com` and a number value lies in 1..99. */
  lemma ValidValueMeaning(field: FormField, seed: int, s: int)
    requires seed >= 0 && s >= 0
    ensures ValidValue(field, seed, s) != ""
    ensures field.ftype == "email" ==>
      var n := NextNumber(seed, s + 2, 10, 99);
      10 <= n <= 99 && ValidValue(field, seed, s) == "user" + IntToString(n) + "@example.com"
    ensures field.ftype == "number" ==>
      var n := NextNumber(seed, s + 5, 1, 99);
      1 <= n <= 99 && ValidValue(field, seed, s) == IntToString(n)
  {
    NextNumberInRange(seed, s + 2, 10, 99);
    NextNumberInRange(seed, s + 5, 1, 99);
    var v := ValidValue(field, seed, s);
    if field.ftype == "number" {
      assert |IntToString(NextNumber(seed, s + 5, 1, 99))| > 0;
    }
  }

  /** The positive test navigates, fills every field in order (the k-th
   *  field's step drawing after position `s + 5k`, see `FillStepFields`),
   *  and clicks the submit button exactly when the form has one. */
  lemma PositiveTestShape(node: AppNode, form: FormDescriptor, baseUrl: string, seed: int, s: int, hash: string -> string)
    ensures var t := PositiveTest(node, form, baseUrl, seed, s, hash);
      && |t.flow| == 1 + |form.fields| + (if form.submitButton.Some? then 1 else 0)
      && t.flow[0].action == Navigate
      && (forall k :: 0 <= k < |form.fields| ==> t.flow[1 + k] == FillStepOf(form, seed, hash)(form.fields[k], s + 5 * k))
      && (form.submitButton.Some? ==>
            t.flow[|t.flow| - 1].action == Click
            && t.flow[|t.flow| - 1].target == Some(ByText(form.submitButton.value.selector.primary)))
  {
    DrawsFlow(BaseStep(node, baseUrl, seed, hash), form.fields, s, FillStepOf(form, seed, hash), SubmitStep(form, seed, hash));
  }

  /** A flow of a head step, one drawn step per field and a tail. */
  lemma DrawsFlow(head: TestStep, fields: seq<FormField>, s: int, step: (FormField, int) -> TestStep, tail: seq<TestStep>)
    ensures var flow := [head] + Draws(fields, s, step) + tail;
      && |flow| == 1 + |fields| + |tail|
      && flow[0] == head
      && (forall k :: 0 <= k < |fields| ==> flow[1 + k] == step(fields[k], s + 5 * k))
      && (|tail| > 0 ==> flow[|flow| - 1] == tail[|tail| - 1])
  {
    var draws := Draws(fields, s, step);
    DrawsAt(fields, s, step);
    var front := [head] + draws;
    forall k | 0 <= k < |fields|
      ensures (front + tail)[1 + k] == step(fields[k], s + 5 * k)
    {
      assert (front + tail)[1 + k] == front[1 + k] == draws[k];
    }
  }

  /** What the fill step of one field does. */
  lemma FillStepFields(form: FormDescriptor, field: FormField, seed: int, p: int, hash: string -> string)
    ensures var step := FillStepOf(form, seed, hash)(field, p);
      && step.action == (if field.ftype == "select" then Select else Fill)
      && step.target == Some(ByText(field.selector.primary))
      && step.value == Some(ValidValue(field, seed, p))
  {
  }

  /** There is an invalid-email test exactly when the form has an email
   *  field; it fills the FIRST email field with a malformed address. */
  lemma InvalidTestsMeaning(node: AppNode, form: FormDescriptor, baseUrl: string, seed: int, hash: string -> string)
    ensures var r := InvalidTests(node, form, baseUrl, seed, hash);
      && (|r| == 1 <==> exists f :: f in form.fields && f.ftype == "email")
      && (|r| == 0 <==> !exists f :: f in form.fields && f.ftype == "email")
      && (r != [] ==>
            exists i :: 0 <= i < |form.fields| && form.fields[i].ftype == "email"
              && (forall j :: 0 <= j < i ==> form.fields[j].ftype != "email")
              && r[0].flow[1].target == Some(ByText(form.fields[i].selector.primary))
              && r[0].flow[1].value == Some("invalid-email-format"))
  {
    var r := InvalidTests(node, form, baseUrl, seed, hash);
    match FindIndex(form.fields, IsEmailField)
    case None =>
      assert forall f :: f in form.fields ==> !IsEmailField(f);
    case Some(i) =>
      assert IsEmailField(form.fields[i]);
      assert form.fields[i] in form.fields;
  }

  /** One boundary test per field with a usable max length, each filling
   *  that field with `x` repeated one more time than the field allows. */
  lemma {:induction false} BoundaryTestsMeaning(node: AppNode, form: FormDescriptor, fields: seq<FormField>, baseUrl: string,
                                                seed: int, hash: string -> string)
    ensures var r := BoundaryTests(node, form, fields, baseUrl, seed, hash);
      && |r| == |Filter(fields, HasMaxLength)|
      && (forall f :: f in fields && HasMaxLength(f) ==> BoundaryTest(node, form, f, baseUrl, seed, hash) in r)
      && (forall t :: t in r ==>
            exists f :: f in fields && HasMaxLength(f) && t == BoundaryTest(node, form, f, baseUrl, seed, hash)
              && t.flow[1].target == Some(ByText(f.selector.primary))
              && t.flow[1].value == Some(Repeat('x', f.constraints.value.maxLength.value + 1)))
    decreases |fields|
  {
    if |fields| > 0 {
      var n := |fields| - 1;
      var init := fields[..n];
      BoundaryTestsMeaning(node, form, init, baseUrl, seed, hash);
      assert fields == init + [fields[n]];
      FilterAppend(init, [fields[n]], HasMaxLength);
      assert Filter([fields[n]], HasMaxLength) == if HasMaxLength(fields[n]) then [fields[n]] else [];
      forall f | f in fields && HasMaxLength(f)
        ensures BoundaryTest(node, form, f, baseUrl, seed, hash) in BoundaryTests(node, form, fields, baseUrl, seed, hash)
      {
        if f != fields[n] {
          assert f in init;
        }
      }
    }
  }

  class FormGenerator {
    var seed: int
    var sequence: int

    constructor ()
      ensures seed == 42 && sequence == 0
    {
      seed := 42;
      sequence := 0;
    }

    /** Resets the seed and the sequence, then emits the tests of every
     *  form of every node that has forms. The result depends only on the
     *  graph, the options and the hash, never on earlier calls. */
    method Generate(g: AppGraph, options: FormOptions, hash: string -> string) returns (tests: seq<TestCase>)
      modifies this
      ensures tests == FormTests(g, options, hash)
      ensures seed == options.seed.GetOr(42)
      ensures sequence == NodesEnd(Filter(g.nodes, HasForms))
    {
      seed := options.seed.GetOr(42);
      sequence := 0;
      tests := [];
      var nodes := Filter(g.nodes, HasForms);
      var i := 0;
      while i < |nodes|
        invariant 0 <= i <= |nodes|
        invariant seed == options.seed.GetOr(42)
        invariant tests == NodesTests(nodes[..i], g.baseUrl, seed, options, hash)
        invariant sequence == NodesEnd(nodes[..i])
      {
        var more := GenerateNodeTests(nodes[i], g.baseUrl, options, hash);
        tests := tests + more;
        assert nodes[..i + 1][..i] == nodes[..i];
        i := i + 1;
      }
      assert nodes[..i] == nodes;
    }

    /** The tests of every form of one node, in form order. */
    method GenerateNodeTests(node: AppNode, baseUrl: string, options: FormOptions, hash: string -> string)
      returns (tests: seq<TestCase>)
      modifies this`sequence
      ensures tests == FormsTests(node, node.forms, baseUrl, seed, old(sequence), options, hash)
      ensures sequence == FormsEnd(node.forms, old(sequence))
    {
      ghost var s0 := sequence;
      tests := [];
      var f := 0;
      while f < |node.forms|
        invariant 0 <= f <= |node.forms|
        invariant tests == FormsTests(node, node.forms[..f], baseUrl, seed, s0, options, hash)
        invariant sequence == FormsEnd(node.forms[..f], s0)
      {
        var more := GenerateFormTests(node, node.forms[f], baseUrl, options, hash);
        FormsTestsSnoc(node, node.forms, f, baseUrl, seed, s0, options, hash);
        tests := tests + more;
        f := f + 1;
      }
      assert node.forms[..f] == node.forms;
    }

    /** Positive, empty, invalid (unless switched off) and boundary
     *  (unless switched off) tests of one form. */
    method GenerateFormTests(node: AppNode, form: FormDescriptor, baseUrl: string, options: FormOptions, hash: string -> string)
      returns (tests: seq<TestCase>)
      modifies this`sequence
      ensures sequence == old(sequence) + 5 * |form.fields|
      ensures tests == FormCaseTests(node, form, baseUrl, seed, old(sequence), options, hash)
    {
      var positive := GeneratePositiveTest(node, form, baseUrl, hash);
      tests := [positive, EmptySubmissionTest(node, form, baseUrl, seed, hash)];
      if options.includeInvalidCases != Some(false) {
        tests := tests + InvalidTests(node, form, baseUrl, seed, hash);
      }
      if options.includeBoundaryCases != Some(false) {
        var boundary := GenerateBoundaryTests(node, form, baseUrl, hash);
        tests := tests + boundary;
      }
    }

    /** Advances the sequence by one and draws from `[min, max]`. */
    method NextDeterministicNumber(min: int, max: int) returns (n: int)
      requires min <= max
      modifies this`sequence
      ensures sequence == old(sequence) + 1
      ensures n == NextNumber(seed, sequence, min, max)
    {
      sequence := sequence + 1;
      var span := max - min + 1;
      var raw := JsRem(seed * 9301 + sequence * 49297, 233280);
      n := min + JsRem(raw, span);
    }

    /** Builds the whole value table, so the sequence always advances by 5. */
    method GenerateValidValue(field: FormField) returns (v: string)
      modifies this`sequence
      ensures sequence == old(sequence) + 5
      ensures v == ValidValue(field, seed, old(sequence))
    {
      var n1 := NextDeterministicNumber(1000, 9999);
      var n2 := NextDeterministicNumber(10, 99);
      var n3 := NextDeterministicNumber(1000, 9999);
      var n4 := NextDeterministicNumber(1000000, 9999999);
      var n5 := NextDeterministicNumber(1, 99);
      v := ValueTable(field, n1, n2, n3, n4, n5);
    }

    /** One fill (or select) step per field, in field order. */
    method GenerateFillSteps(form: FormDescriptor, hash: string -> string) returns (steps: seq<TestStep>)
      modifies this`sequence
      ensures sequence == old(sequence) + 5 * |form.fields|
      ensures steps == FillSteps(form, form.fields, seed, old(sequence), hash)
    {
      ghost var s0 := sequence;
      ghost var fill := FillStepOf(form, seed, hash);
      steps := [];
      var k := 0;
      while k < |form.fields|
        invariant 0 <= k <= |form.fields|
        invariant sequence == s0 + 5 * k
        invariant fill == FillStepOf(form, seed, hash)
        invariant steps == Draws(form.fields[..k], s0, fill)
      {
        var step := GenerateFillStepAt(form, hash, s0, fill, k);
        DrawsSnoc(form.fields, k, s0, fill);
        steps := steps + [step];
        k := k + 1;
      }
      assert form.fields[..k] == form.fields;
    }

    /** The step of field `k`, drawn at the current position `s0 + 5k`:
     *  the loop body of `GenerateFillSteps`. */
    method GenerateFillStepAt(form: FormDescriptor, hash: string -> string, ghost s0: int, ghost fill: (FormField, int) -> TestStep,
                              k: nat) returns (step: TestStep)
      requires k < |form.fields| && sequence == s0 + 5 * k && fill == FillStepOf(form, seed, hash)
      modifies this`sequence
      ensures sequence == s0 + 5 * (k + 1)
      ensures step == fill(form.fields[k], s0 + 5 * k)
    {
      step := GenerateFillStep(form, form.fields[k], hash);
    }

    /** The fill (or select) step of one field, drawing its valid value. */
    method GenerateFillStep(form: FormDescriptor, field: FormField, hash: string -> string) returns (step: TestStep)
      modifies this`sequence
      ensures sequence == old(sequence) + 5
      ensures step == FillStepOf(form, seed, hash)(field, old(sequence))
    {
      var value := GenerateValidValue(field);
      step := MkStep(MakeId(seed, "step", form.id + "-" + field.name + "-valid", hash), FieldAction(field),
        Some(ByText(field.selector.primary)), Some(value));
    }

    /** Navigate, one fill per field in order, then submit when the form
     *  has a submit button. */
    method GeneratePositiveTest(node: AppNode, form: FormDescriptor, baseUrl: string, hash: string -> string)
      returns (t: TestCase)
      modifies this`sequence
      ensures sequence == old(sequence) + 5 * |form.fields|
      ensures t == PositiveTest(node, form, baseUrl, seed, old(sequence), hash)
    {
      var fills := GenerateFillSteps(form, hash);
      var steps := [BaseStep(node, baseUrl, seed, hash)] + fills;
      if form.submitButton.Some? {
        steps := steps + [MkStep(MakeId(seed, "step", form.id + "-submit", hash), Click,
          Some(ByText(form.submitButton.value.selector.primary)), None)];
      }
      t := TestCase(MakeId(seed, "test", node.id + "-" + form.id + "-positive", hash),
        "[Form] " + node.name + " - Valid submission", steps,
        DefaultAssertions(form), ["form", "positive", OrElse(node.route, "root")], High, Some(5000));
    }

    /** One overflow test per field with a max length of at least 1. */
    method GenerateBoundaryTests(node: AppNode, form: FormDescriptor, baseUrl: string, hash: string -> string)
      returns (tests: seq<TestCase>)
      ensures tests == BoundaryTests(node, form, form.fields, baseUrl, seed, hash)
    {
      tests := [];
      var k := 0;
      while k < |form.fields|
        invariant 0 <= k <= |form.fields|
        invariant tests == BoundaryTests(node, form, form.fields[..k], baseUrl, seed, hash)
      {
        var field := form.fields[k];
        assert form.fields[..k + 1][..k] == form.fields[..k];
        if HasMaxLength(field) {
          tests := tests + [BoundaryTest(node, form, field, baseUrl, seed, hash)];
        }
        k := k + 1;
      }
      assert form.fields[..k] == form.fields;
    }
  }
}
