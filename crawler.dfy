/** The breadth-first crawler: a FIFO queue of addresses with their depth,
 *  a visited set, and the nodes and navigation edges it records; and the
 *  helpers that turn what a page shows into element, field, form and link
 *  descriptors.
 *
 *  The browser is an oracle: `site(url)` is what loading `url` yields, or
 *  `None` when loading or extracting the page throws before its node is
 *  recorded. URL resolution and the URL hash are function parameters, and
 *  the clock is the `now` parameter. */
module Crawler {
  import opened Wrappers
  import opened Text
  import opened Seqs
  import opened GraphModel
  import Ids

  datatype CrawlOptions = CrawlOptions(
    baseUrl: string,
    maxDepth: int,
    maxPages: int,
    timeout: int,
    headless: bool,
    captureScreenshots: bool)

  /** The value of an attribute, when the element has it. */
  function Attr(attrs: map<string, string>, key: string): Option<string> {
    if key in attrs then Some(attrs[key]) else None
  }

  /** `text?.trim()`: the trimmed text content, or `undefined` when the
   *  element has none. */
  function TrimmedText(text: Option<string>): Option<string> {
    match text
    case Some(t) => Some(Trim(t))
    case None => None
  }

  // ---------------------------------------------------------------------
  // Elements

  /** The roles the crawler looks up, in lookup order. */
  const Roles: seq<string> := ["button", "link", "textbox", "heading", "img"]

  /** At most this many elements are read per role. */
  const MaxPerRole: nat := 20

  /** What the page reports for one element of a role: its text content
   *  and its attributes. */
  datatype RawElement = RawElement(text: Option<string>, attrs: map<string, string>)

  /** The roles whose visible text makes a selector. */
  predicate TextRole(role: string) {
    role == "heading" || role == "button" || role == "link"
  }

  /** The primary selector of an element: a test id, else an ARIA label,
   *  else the text of a heading, button or link, else the role. */
  function ElementSelector(role: string, text: Option<string>, attrs: map<string, string>): string {
    var t := TrimmedText(text);
    if AttrTruthy(attrs, "data-testid") then
      "[data-testid=\"" + attrs["data-testid"] + "\"]"
    else if AttrTruthy(attrs, "aria-label") then
      "[aria-label=\"" + attrs["aria-label"] + "\"]"
    else if role == "heading" && Truthy(t) then
      "h1:has-text(\"" + t.value + "\"), h2:has-text(\"" + t.value + "\"), h3:has-text(\"" + t.value + "\")"
    else if role == "button" && Truthy(t) then
      "button:has-text(\"" + t.value + "\")"
    else if role == "link" && Truthy(t) then
      "a:has-text(\"" + t.value + "\")"
    else
      "[role=\"" + role + "\"]"
  }

  /** `text?.trim() || attrs['aria-label'] || attrs['name'] || undefined`. */
  function ElementName(text: Option<string>, attrs: map<string, string>): Option<string> {
    var t := TrimmedText(text);
    if Truthy(t) then t
    else if AttrTruthy(attrs, "aria-label") then Some(attrs["aria-label"])
    else if AttrTruthy(attrs, "name") then Some(attrs["name"])
    else None
  }

  /** The descriptor recorded for one element of `role`. */
  function ElementFor(role: string, raw: RawElement): ElementDescriptor {
    ElementDescriptor(
      Ids.GeneratedId("el"),
      role,
      ElementName(raw.text, raw.attrs),
      SelectorStrategy(
        ElementSelector(role, raw.text, raw.attrs),
        [],
        0.5,
        if AttrTruthy(raw.attrs, "data-testid") then DataTestId else CssSelector),
      role,
      raw.attrs,
      TrimmedText(raw.text),
      Attr(raw.attrs, "placeholder"),
      0.8)
  }

  /** The first character of a selector that is not built from an
   *  attribute. */
  lemma TextSelectorHead(role: string, t: string)
    ensures ("h1:has-text(\"" + t + "\"), h2:has-text(\"" + t + "\"), h3:has-text(\"" + t + "\")")[0] == 'h'
    ensures ("button:has-text(\"" + t + "\")")[0] == 'b'
    ensures ("a:has-text(\"" + t + "\")")[0] == 'a'
  {
  }

  /** A test id selector is chosen exactly when the element has a test id;
   *  it is the only selector that starts with `[d`. */
  lemma ElementSelectorTestId(role: string, text: Option<string>, attrs: map<string, string>)
    ensures StartsWith(ElementSelector(role, text, attrs), "[d") <==> AttrTruthy(attrs, "data-testid")
  {
    var p := ElementSelector(role, text, attrs);
    var t := TrimmedText(text);
    if !AttrTruthy(attrs, "data-testid") {
      if Truthy(t) { TextSelectorHead(role, t.value); }
      if |p| >= 2 && !AttrTruthy(attrs, "aria-label") && !(TextRole(role) && Truthy(t)) {
        assert p[1] == 'r';
      }
      if |p| >= 2 && AttrTruthy(attrs, "aria-label") {
        assert p[1] == 'a';
      }
    }
  }

  /** An ARIA label selector is chosen exactly when the element has a label
   *  and no test id. */
  lemma ElementSelectorAriaLabel(role: string, text: Option<string>, attrs: map<string, string>)
    ensures StartsWith(ElementSelector(role, text, attrs), "[a")
      <==> !AttrTruthy(attrs, "data-testid") && AttrTruthy(attrs, "aria-label")
  {
    var p := ElementSelector(role, text, attrs);
    var t := TrimmedText(text);
    if AttrTruthy(attrs, "data-testid") {
      assert p[1] == 'd';
    } else if !AttrTruthy(attrs, "aria-label") {
      if Truthy(t) { TextSelectorHead(role, t.value); }
      if |p| >= 2 && !(TextRole(role) && Truthy(t)) {
        assert p[1] == 'r';
      }
    }
  }

  /** The role selector is the last resort: it is chosen exactly when there
   *  is no test id, no ARIA label and no usable text. */
  lemma ElementSelectorRole(role: string, text: Option<string>, attrs: map<string, string>)
    ensures StartsWith(ElementSelector(role, text, attrs), "[r")
      <==> !AttrTruthy(attrs, "data-testid") && !AttrTruthy(attrs, "aria-label")
           && !(TextRole(role) && Truthy(TrimmedText(text)))
  {
    var p := ElementSelector(role, text, attrs);
    var t := TrimmedText(text);
    if AttrTruthy(attrs, "data-testid") {
      assert p[1] == 'd';
    } else if AttrTruthy(attrs, "aria-label") {
      assert p[1] == 'a';
    } else if Truthy(t) {
      TextSelectorHead(role, t.value);
    }
  }

  /** The recorded element: its role is both its role and its type, the
   *  selector is tagged as a test id selector exactly when there is a test
   *  id, and a name, when there is one, is never empty. */
  lemma ElementForSpec(role: string, raw: RawElement)
    ensures ElementFor(role, raw).role == role && ElementFor(role, raw).etype == role
    ensures ElementFor(role, raw).selector.stype == DataTestId <==> AttrTruthy(raw.attrs, "data-testid")
    ensures ElementFor(role, raw).name.Some? ==> ElementFor(role, raw).name.value != ""
    ensures ElementFor(role, raw).name.None? <==>
      !Truthy(TrimmedText(raw.text)) && !AttrTruthy(raw.attrs, "aria-label") && !AttrTruthy(raw.attrs, "name")
  {
  }

  /** The elements recorded for one role, in the order the page lists
   *  them. */
  function RoleElements(role: string, raws: seq<RawElement>): (r: seq<ElementDescriptor>)
    ensures |r| == |raws|
  {
    if |raws| == 0 then []
    else RoleElements(role, raws[..|raws| - 1]) + [ElementFor(role, raws[|raws| - 1])]
  }

  /** The i-th recorded element is the one for the i-th listed element, and
   *  has the role it was looked up by. */
  lemma {:induction false} RoleElementsAt(role: string, raws: seq<RawElement>)
    ensures forall i :: 0 <= i < |raws| ==>
      RoleElements(role, raws)[i] == ElementFor(role, raws[i]) && RoleElements(role, raws)[i].role == role
    decreases |raws|
  {
    if |raws| > 0 {
      var n := |raws| - 1;
      RoleElementsAt(role, raws[..n]);
      forall i | 0 <= i < |raws|
        ensures RoleElements(role, raws)[i] == ElementFor(role, raws[i]) && RoleElements(role, raws)[i].role == role
      {
        ElementForSpec(role, raws[i]);
        if i < n {
          assert raws[..n][i] == raws[i];
        }
      }
    }
  }

  lemma RoleElementsSnoc(role: string, raws: seq<RawElement>, i: nat)
    requires i < |raws|
    ensures RoleElements(role, raws[..i + 1]) == RoleElements(role, raws[..i]) + [ElementFor(role, raws[i])]
  {
    assert raws[..i + 1][..i] == raws[..i];
  }

  /** The elements the page lists for `role`, cut to the per-role cap. */
  function Capped(raws: seq<RawElement>): seq<RawElement> {
    if |raws| <= MaxPerRole then raws else raws[..MaxPerRole]
  }

  /** The elements recorded for `roles`, role after role. */
  function RolesElements(roles: seq<string>, found: string -> seq<RawElement>): seq<ElementDescriptor> {
    if |roles| == 0 then []
    else
      var role := roles[|roles| - 1];
      RolesElements(roles[..|roles| - 1], found) + RoleElements(role, Capped(found(role)))
  }

  /** All the elements recorded for a page. */
  function PageElements(found: string -> seq<RawElement>): seq<ElementDescriptor> {
    RolesElements(Roles, found)
  }

  /** The elements of one role appended to those found so far. */
  method AppendRole(elements: seq<ElementDescriptor>, role: string, raws: seq<RawElement>)
    returns (r: seq<ElementDescriptor>)
    ensures r == elements + RoleElements(role, Capped(raws))
  {
    var n := if |raws| < MaxPerRole then |raws| else MaxPerRole;
    r := elements;
    for i := 0 to n
      invariant r == elements + RoleElements(role, raws[..i])
    {
      RoleElementsSnoc(role, raws, i);
      r := r + [ElementFor(role, raws[i])];
    }
    assert raws[..n] == Capped(raws);
  }

  /** `extractElements`: role after role, at most `MaxPerRole` elements of
   *  each. */
  method ExtractElements(found: string -> seq<RawElement>) returns (elements: seq<ElementDescriptor>)
    ensures elements == PageElements(found)
  {
    elements := [];
    for k := 0 to |Roles|
      invariant elements == RolesElements(Roles[..k], found)
    {
      assert Roles[..k + 1][..k] == Roles[..k];
      elements := AppendRole(elements, Roles[k], found(Roles[k]));
    }
    assert Roles[..|Roles|] == Roles;
  }

  /** The position of a role in the lookup order. */
  function RoleRank(role: string): nat {
    if role == "button" then 0
    else if role == "link" then 1
    else if role == "textbox" then 2
    else if role == "heading" then 3
    else 4
  }

  /** The number of elements of `s` with `role`. */
  function CountRole(s: seq<ElementDescriptor>, role: string): nat {
    if |s| == 0 then 0
    else CountRole(s[..|s| - 1], role) + (if s[|s| - 1].role == role then 1 else 0)
  }

  lemma {:induction false} CountRoleAppend(a: seq<ElementDescriptor>, b: seq<ElementDescriptor>, role: string)
    ensures CountRole(a + b, role) == CountRole(a, role) + CountRole(b, role)
    decreases |b|
  {
    if |b| == 0 {
      assert a + b == a;
    } else {
      var init := b[..|b| - 1];
      assert (a + b)[..|a + b| - 1] == a + init;
      CountRoleAppend(a, init, role);
    }
  }

  lemma {:induction false} CountRoleElements(role: string, raws: seq<RawElement>, other: string)
    ensures CountRole(RoleElements(role, raws), other) == if role == other then |raws| else 0
    decreases |raws|
  {
    if |raws| > 0 {
      var s := RoleElements(role, raws);
      assert s[..|s| - 1] == RoleElements(role, raws[..|raws| - 1]);
      CountRoleElements(role, raws[..|raws| - 1], other);
    }
  }

  /** The number of recorded elements of a role in `roles` is what the
   *  page lists for it, up to the cap; other roles have none. */
  lemma {:induction false} CountRolesElements(roles: seq<string>, found: string -> seq<RawElement>, role: string)
    requires Distinct(roles)
    ensures CountRole(RolesElements(roles, found), role) ==
      if role in roles then |Capped(found(role))| else 0
    decreases |roles|
  {
    if |roles| > 0 {
      var init := roles[..|roles| - 1];
      var last := roles[|roles| - 1];
      assert Distinct(init);
      CountRolesElements(init, found, role);
      CountRoleAppend(RolesElements(init, found), RoleElements(last, Capped(found(last))), role);
      CountRoleElements(last, Capped(found(last)), role);
      assert roles == init + [last];
      if last == role {
        assert role !in init;
      }
    }
  }

  /** Each role contributes the elements the page lists for it, at most
   *  `MaxPerRole` of them; roles outside the lookup list contribute none. */
  lemma PageElementsPerRole(found: string -> seq<RawElement>, role: string)
    ensures CountRole(PageElements(found), role) ==
      if role in Roles then (if |found(role)| < MaxPerRole then |found(role)| else MaxPerRole) else 0
  {
    assert Distinct(Roles);
    CountRolesElements(Roles, found, role);
  }

  /** `s` lists its elements by role in the lookup order. */
  predicate RankOrdered(s: seq<ElementDescriptor>) {
    forall i, j :: 0 <= i < j < |s| ==> RoleRank(s[i].role) <= RoleRank(s[j].role)
  }

  lemma {:induction false} RolesElementsRoles(roles: seq<string>, found: string -> seq<RawElement>)
    ensures forall i :: 0 <= i < |RolesElements(roles, found)| ==> RolesElements(roles, found)[i].role in roles
    decreases |roles|
  {
    if |roles| > 0 {
      var init := roles[..|roles| - 1];
      var last := roles[|roles| - 1];
      RolesElementsRoles(init, found);
      var a := RolesElements(init, found);
      var b := RoleElements(last, Capped(found(last)));
      RoleElementsAt(last, Capped(found(last)));
      var s := a + b;
      assert RolesElements(roles, found) == s;
      assert roles == init + [last];
      forall i | 0 <= i < |s| ensures s[i].role in roles {
        if i < |a| {
          assert s[i] == a[i];
          assert a[i].role in init;
        } else {
          assert s[i] == b[i - |a|];
          assert s[i].role == last;
        }
      }
    }
  }

  lemma ConcatRankOrdered(a: seq<ElementDescriptor>, b: seq<ElementDescriptor>, last: string)
    requires RankOrdered(a)
    requires forall i :: 0 <= i < |a| ==> RoleRank(a[i].role) < RoleRank(last)
    requires forall i :: 0 <= i < |b| ==> b[i].role == last
    ensures RankOrdered(a + b)
  {
    var s := a + b;
    forall i, j | 0 <= i < j < |s| ensures RoleRank(s[i].role) <= RoleRank(s[j].role) {
      if j < |a| {
        assert s[i] == a[i] && s[j] == a[j];
      } else if i < |a| {
        assert s[i] == a[i] && s[j] == b[j - |a|];
      } else {
        assert s[i] == b[i - |a|] && s[j] == b[j - |a|];
      }
    }
  }

  /** The recorded elements are grouped by role in the lookup order. */
  lemma {:induction false} RolesElementsOrdered(roles: seq<string>, found: string -> seq<RawElement>)
    requires forall i, j :: 0 <= i < j < |roles| ==> RoleRank(roles[i]) < RoleRank(roles[j])
    ensures RankOrdered(RolesElements(roles, found))
    decreases |roles|
  {
    if |roles| > 0 {
      var init := roles[..|roles| - 1];
      var last := roles[|roles| - 1];
      RolesElementsOrdered(init, found);
      RolesElementsRoles(init, found);
      var a := RolesElements(init, found);
      forall i | 0 <= i < |a| ensures RoleRank(a[i].role) < RoleRank(last) {
        var k :| 0 <= k < |init| && init[k] == a[i].role;
        assert roles[k] == init[k];
      }
      RoleElementsAt(last, Capped(found(last)));
      ConcatRankOrdered(a, RoleElements(last, Capped(found(last))), last);
    }
  }

  /** The page's elements come button first, then link, textbox, heading and
   *  image, and every one has one of these roles. */
  lemma PageElementsOrdered(found: string -> seq<RawElement>)
    ensures RankOrdered(PageElements(found))
    ensures forall i :: 0 <= i < |PageElements(found)| ==> PageElements(found)[i].role in Roles
  {
    RolesElementsOrdered(Roles, found);
    RolesElementsRoles(Roles, found);
  }

  // ---------------------------------------------------------------------
  // Forms

  /** What the page reports for one input, select or textarea. `name` is
   *  the input's name, else its id, else empty. */
  datatype RawField = RawField(
    tag: string,
    itype: string,
    name: string,
    id: string,
    placeholder: string,
    required: bool,
    testId: string,
    labelText: string)

  /** What the page reports for one form. */
  datatype RawForm = RawForm(
    index: nat,
    testId: string,
    id: string,
    fields: seq<RawField>,
    hasSubmit: bool,
    submitTestId: string)

  /** The input types kept as they are. */
  const KnownInputTypes: set<string> := {"email", "password", "tel", "number", "url", "date", "checkbox", "radio"}

  /** `mapInputType`. */
  function MapInputType(itype: string, tag: string): string {
    if tag == "select" then "select"
    else if tag == "textarea" then "text"
    else if itype in KnownInputTypes then itype
    else "text"
  }

  /** Selects become `select`, text areas `text`; the known input types are
   *  kept, anything else becomes `text`; the result is always one of
   *  these. */
  lemma MapInputTypeSpec(itype: string, tag: string)
    ensures tag == "select" <==> MapInputType(itype, tag) == "select"
    ensures tag == "textarea" ==> MapInputType(itype, tag) == "text"
    ensures tag != "select" && tag != "textarea" && itype in KnownInputTypes ==> MapInputType(itype, tag) == itype
    ensures MapInputType(itype, tag) in KnownInputTypes + {"select", "text"}
    ensures MapInputType(itype, tag) in KnownInputTypes ==> MapInputType(itype, tag) == itype
  {
  }

  /** The primary selector of a field: test id, else id, else name, else
   *  the tag with its placeholder. */
  function FieldSelector(f: RawField): string {
    if f.testId != "" then "[data-testid=\"" + f.testId + "\"]"
    else if f.id != "" then "#" + f.id
    else if f.name != "" then "[name=\"" + f.name + "\"]"
    else f.tag + "[placeholder=\"" + f.placeholder + "\"]"
  }

  /** A field's id selector is used exactly when it has an id and no test
   *  id; a name selector exactly when it has neither but has a name. */
  lemma FieldSelectorPriority(f: RawField)
    requires |f.tag| > 0 && f.tag[0] != '#' && f.tag[0] != '['
    ensures StartsWith(FieldSelector(f), "#") <==> f.testId == "" && f.id != ""
    ensures StartsWith(FieldSelector(f), "[d") <==> f.testId != ""
    ensures StartsWith(FieldSelector(f), "[n") <==> f.testId == "" && f.id == "" && f.name != ""
  {
    var p := FieldSelector(f);
    if f.testId != "" {
      assert p[0] == '[' && p[1] == 'd';
    } else if f.id != "" {
      assert p[0] == '#';
    } else if f.name != "" {
      assert p[0] == '[' && p[1] == 'n';
    } else {
      assert p[0] == f.tag[0];
    }
  }

  /** The recorded field. A field with neither name nor id gets a generated
   *  name. */
  function FieldFor(f: RawField): FormField {
    FormField(
      if f.name != "" then f.name else if f.id != "" then f.id else Ids.GeneratedId("field-" + f.tag),
      MapInputType(f.itype, f.tag),
      SelectorStrategy(FieldSelector(f), [], 0.6, if f.testId != "" then DataTestId else CssSelector),
      f.required,
      Some(f.placeholder),
      Some(f.labelText),
      None,
      None,
      map[])
  }

  /** The rules one field contributes: required first, then email. */
  function FieldRules(f: FormField): seq<ValidationRule> {
    (if f.required then [ValidationRule(f.name, RequiredRule, None)] else [])
    + (if f.ftype == "email" then [ValidationRule(f.name, EmailRule, None)] else [])
  }

  /** The rules inferred for `fields`, field after field. */
  function RulesFor(fields: seq<FormField>): seq<ValidationRule> {
    if |fields| == 0 then []
    else RulesFor(fields[..|fields| - 1]) + FieldRules(fields[|fields| - 1])
  }

  /** `inferValidationRules`. */
  method InferValidationRules(fields: seq<FormField>) returns (rules: seq<ValidationRule>)
    ensures rules == RulesFor(fields)
  {
    rules := [];
    for i := 0 to |fields|
      invariant rules == RulesFor(fields[..i])
    {
      assert fields[..i + 1][..i] == fields[..i];
      var field := fields[i];
      if field.required {
        rules := rules + [ValidationRule(field.name, RequiredRule, None)];
      }
      if field.ftype == "email" {
        rules := rules + [ValidationRule(field.name, EmailRule, None)];
      }
    }
    assert fields[..|fields|] == fields;
  }

  /** Rules come in field order: the rules of `a + b` are those of `a`
   *  followed by those of `b`. */
  lemma {:induction false} RulesForAppend(a: seq<FormField>, b: seq<FormField>)
    ensures RulesFor(a + b) == RulesFor(a) + RulesFor(b)
    decreases |b|
  {
    if |b| == 0 {
      assert a + b == a;
    } else {
      var init := b[..|b| - 1];
      assert (a + b)[..|a + b| - 1] == a + init;
      RulesForAppend(a, init);
    }
  }

  /** Every required field has a required rule and every email field an
   *  email rule. */
  lemma {:induction false} RulesForComplete(fields: seq<FormField>)
    ensures forall i :: 0 <= i < |fields| && fields[i].required ==>
      ValidationRule(fields[i].name, RequiredRule, None) in RulesFor(fields)
    ensures forall i :: 0 <= i < |fields| && fields[i].ftype == "email" ==>
      ValidationRule(fields[i].name, EmailRule, None) in RulesFor(fields)
    decreases |fields|
  {
    if |fields| > 0 {
      var init := fields[..|fields| - 1];
      RulesForComplete(init);
      assert forall i :: 0 <= i < |init| ==> fields[i] == init[i];
    }
  }

  /** Every rule is a required rule for a required field or an email rule
   *  for an email field, with no message. */
  lemma {:induction false} RulesForSound(fields: seq<FormField>)
    ensures forall r :: r in RulesFor(fields) ==> r.message.None? && (r.rule == RequiredRule || r.rule == EmailRule)
    ensures forall r :: r in RulesFor(fields) && r.rule == RequiredRule ==>
      exists i :: 0 <= i < |fields| && fields[i].name == r.field && fields[i].required
    ensures forall r :: r in RulesFor(fields) && r.rule == EmailRule ==>
      exists i :: 0 <= i < |fields| && fields[i].name == r.field && fields[i].ftype == "email"
    decreases |fields|
  {
    if |fields| > 0 {
      var init := fields[..|fields| - 1];
      var last := fields[|fields| - 1];
      RulesForSound(init);
      forall r | r in RulesFor(fields) && r.rule == RequiredRule
        ensures exists i :: 0 <= i < |fields| && fields[i].name == r.field && fields[i].required
      {
        if r in RulesFor(init) {
          var i :| 0 <= i < |init| && init[i].name == r.field && init[i].required;
          assert fields[i] == init[i];
        } else {
          assert fields[|fields| - 1] == last;
        }
      }
      forall r | r in RulesFor(fields) && r.rule == EmailRule
        ensures exists i :: 0 <= i < |fields| && fields[i].name == r.field && fields[i].ftype == "email"
      {
        if r in RulesFor(init) {
          var i :| 0 <= i < |init| && init[i].name == r.field && init[i].ftype == "email";
          assert fields[i] == init[i];
        } else {
          assert fields[|fields| - 1] == last;
        }
      }
    }
  }

  /** The primary selector of a form: test id, else id, else its position
   *  among the page's forms. */
  function FormSelector(form: RawForm): string {
    if form.testId != "" then "[data-testid=\"" + form.testId + "\"]"
    else if form.id != "" then "#" + form.id
    else "form:nth-of-type(" + NatToString(form.index + 1) + ")"
  }

  /** The submit button of a form that has one. */
  function SubmitButton(form: RawForm): Option<ElementDescriptor> {
    if form.hasSubmit then
      Some(ElementDescriptor(
        Ids.GeneratedId("btn"),
        "button",
        Some("Submit"),
        SelectorStrategy(
          if form.submitTestId != "" then "[data-testid=\"" + form.submitTestId + "\"]" else "button[type=\"submit\"]",
          [],
          0.7,
          if form.submitTestId != "" then DataTestId else CssSelector),
        "button",
        map["type" := "submit"],
        None,
        None,
        0.9))
    else None
  }

  /** The recorded form, with the rules inferred from its recorded
   *  fields. */
  function FormFor(form: RawForm): FormDescriptor {
    var fields := Map(form.fields, FieldFor);
    FormDescriptor(
      Ids.GeneratedId("form"),
      SelectorStrategy(FormSelector(form), [], 0.6, if form.testId != "" then DataTestId else CssSelector),
      fields,
      SubmitButton(form),
      Some(RulesFor(fields)),
      None,
      None)
  }

  /** One recorded form. */
  method BuildForm(form: RawForm) returns (r: FormDescriptor)
    ensures r == FormFor(form)
  {
    var fields := Map(form.fields, FieldFor);
    var rules := InferValidationRules(fields);
    r := FormDescriptor(
      Ids.GeneratedId("form"),
      SelectorStrategy(FormSelector(form), [], 0.6, if form.testId != "" then DataTestId else CssSelector),
      fields,
      SubmitButton(form),
      Some(rules),
      None,
      None);
  }

  /** `extractForms`: the page's forms, in page order. */
  method ExtractForms(forms: seq<RawForm>) returns (r: seq<FormDescriptor>)
    ensures r == Map(forms, FormFor)
  {
    r := [];
    for i := 0 to |forms|
      invariant |r| == i
      invariant forall k :: 0 <= k < i ==> r[k] == FormFor(forms[k])
    {
      var form := BuildForm(forms[i]);
      r := r + [form];
    }
  }

  /** A recorded form keeps its fields in order, has one recorded field per
   *  input, and carries the rules inferred from those fields; its selector
   *  is tagged as a test id selector exactly when the form has a test
   *  id. */
  lemma FormForSpec(form: RawForm)
    ensures |FormFor(form).fields| == |form.fields|
    ensures forall i :: 0 <= i < |form.fields| ==>
      FormFor(form).fields[i].ftype == MapInputType(form.fields[i].itype, form.fields[i].tag)
      && FormFor(form).fields[i].required == form.fields[i].required
    ensures FormFor(form).validationRules == Some(RulesFor(FormFor(form).fields))
    ensures FormFor(form).selector.stype == DataTestId <==> form.testId != ""
    ensures FormFor(form).submitButton.Some? <==> form.hasSubmit
  {
  }

  // ---------------------------------------------------------------------
  // Links, routes and names

  /** What the page reports for one anchor with an `href`. */
  datatype RawLink = RawLink(href: string, text: string, testId: string)

  /** A link the crawler may follow: an absolute address and the anchor
   *  that leads there. */
  datatype Link = Link(url: string, element: ElementDescriptor)

  /** The anchors kept before resolution: a non-empty `href` that is not an
   *  in-page anchor and not a mail link. */
  predicate KeepHref(href: string) {
    href != "" && !StartsWith(href, "#") && !StartsWith(href, "mailto:")
  }

  /** The descriptor of the anchor behind a link. */
  function LinkElement(l: RawLink): ElementDescriptor {
    ElementDescriptor(
      Ids.GeneratedId("link"),
      "link",
      Some(l.text),
      SelectorStrategy(
        if l.testId != "" then "[data-testid=\"" + l.testId + "\"]"
        else if l.text != "" then "a:has-text(\"" + l.text + "\")"
        else "a[href=\"" + l.href + "\"]",
        [],
        0.5,
        if l.testId != "" then DataTestId else CssSelector),
      "link",
      map["href" := l.href],
      Some(l.text),
      None,
      0.7)
  }

  /** Whether the crawler keeps an anchor: `resolve(href, baseUrl)` stands
   *  for `new URL(href, baseUrl).href`. */
  predicate Followed(l: RawLink, baseUrl: string, resolve: (string, string) -> string) {
    KeepHref(l.href) && StartsWith(resolve(l.href, baseUrl), baseUrl)
  }

  /** `extractLinks`: the kept anchors, resolved, in page order. */
  function ExtractLinks(raws: seq<RawLink>, baseUrl: string, resolve: (string, string) -> string): seq<Link> {
    if |raws| == 0 then []
    else
      var l := raws[|raws| - 1];
      ExtractLinks(raws[..|raws| - 1], baseUrl, resolve)
      + (if Followed(l, baseUrl, resolve) then [Link(resolve(l.href, baseUrl), LinkElement(l))] else [])
  }

  /** Every extracted link stays under the base address and comes from an
   *  anchor that is neither an in-page anchor nor a mail link. */
  lemma {:induction false} ExtractLinksSound(raws: seq<RawLink>, baseUrl: string, resolve: (string, string) -> string)
    ensures forall l :: l in ExtractLinks(raws, baseUrl, resolve) ==> StartsWith(l.url, baseUrl)
    ensures forall l :: l in ExtractLinks(raws, baseUrl, resolve) ==>
      exists i :: (0 <= i < |raws| && Followed(raws[i], baseUrl, resolve)
        && l == Link(resolve(raws[i].href, baseUrl), LinkElement(raws[i])))
    decreases |raws|
  {
    if |raws| > 0 {
      var init := raws[..|raws| - 1];
      ExtractLinksSound(init, baseUrl, resolve);
      forall l | l in ExtractLinks(raws, baseUrl, resolve)
        ensures exists i :: (0 <= i < |raws| && Followed(raws[i], baseUrl, resolve)
          && l == Link(resolve(raws[i].href, baseUrl), LinkElement(raws[i])))
      {
        if l in ExtractLinks(init, baseUrl, resolve) {
          var i :| 0 <= i < |init| && Followed(init[i], baseUrl, resolve)
            && l == Link(resolve(init[i].href, baseUrl), LinkElement(init[i]));
          assert raws[i] == init[i];
        } else {
          assert raws[|raws| - 1] == raws[|raws| - 1];
        }
      }
    }
  }

  /** Every followed anchor gives a link. */
  lemma {:induction false} ExtractLinksComplete(raws: seq<RawLink>, baseUrl: string, resolve: (string, string) -> string)
    ensures forall i :: 0 <= i < |raws| && Followed(raws[i], baseUrl, resolve) ==>
      Link(resolve(raws[i].href, baseUrl), LinkElement(raws[i])) in ExtractLinks(raws, baseUrl, resolve)
    decreases |raws|
  {
    if |raws| > 0 {
      var init := raws[..|raws| - 1];
      ExtractLinksComplete(init, baseUrl, resolve);
      assert forall i :: 0 <= i < |init| ==> raws[i] == init[i];
    }
  }

  /** In-page anchors and mail links are never followed. */
  lemma DroppedHrefs(l: RawLink, baseUrl: string, resolve: (string, string) -> string)
    requires l.href == "" || StartsWith(l.href, "#") || StartsWith(l.href, "mailto:")
      || !StartsWith(resolve(l.href, baseUrl), baseUrl)
    ensures !Followed(l, baseUrl, resolve)
  {
  }

  /** `url.replace(baseUrl, '') || '/'`. */
  function ExtractRoute(url: string, baseUrl: string): string {
    var rest := ReplaceFirst(url, baseUrl, "");
    if rest == "" then "/" else rest
  }

  /** A route is never empty; an address under the base address gives the
   *  remainder after it, and the base address itself gives `/`. */
  lemma ExtractRouteSpec(url: string, baseUrl: string)
    ensures ExtractRoute(url, baseUrl) != ""
    ensures StartsWith(url, baseUrl) && |url| > |baseUrl| ==> ExtractRoute(url, baseUrl) == url[|baseUrl|..]
    ensures url == baseUrl ==> ExtractRoute(url, baseUrl) == "/"
    ensures StartsWith(url, baseUrl) && |url| > |baseUrl| ==> baseUrl + ExtractRoute(url, baseUrl) == url
  {
    if StartsWith(url, baseUrl) {
      assert OccursAt(url, baseUrl, 0);
      assert IndexOf(url, baseUrl) == Some(0);
      assert ReplaceFirst(url, baseUrl, "") == url[|baseUrl|..];
    }
  }

  /** `h1 || title || 'Untitled Page'`. */
  function PageName(h1: Option<string>, title: string): string {
    if Truthy(h1) then h1.value else if title != "" then title else "Untitled Page"
  }

  /** A page name is the heading when it has text, else the title when it
   *  has text, and is never empty. */
  lemma PageNameSpec(h1: Option<string>, title: string)
    ensures PageName(h1, title) != ""
    ensures Truthy(h1) ==> PageName(h1, title) == h1.value
    ensures !Truthy(h1) && title != "" ==> PageName(h1, title) == title
  {
  }

  // ---------------------------------------------------------------------
  // The crawl

  /** What the browser gives for a page that loads: the elements of each
   *  role, the forms, the first heading's text, the title, and the anchors
   *  (`None` when reading them throws, after the node is recorded). */
  datatype Page = Page(
    found: string -> seq<RawElement>,
    forms: seq<RawForm>,
    h1: Option<string>,
    title: string,
    links: Option<seq<RawLink>>)

  /** An address waiting to be crawled and its distance from the base
   *  address. */
  datatype QueueItem = QueueItem(url: string, depth: int)

  /** The node recorded for a loaded page. `nodeIdOf` stands for
   *  `normalizeUrl`, the hash of the address's path and query. */
  function PageNode(url: string, page: Page, baseUrl: string, nodeIdOf: string -> string, now: string): AppNode {
    AppNode(
      nodeIdOf(url),
      RouteNode,
      Some(url),
      Some(ExtractRoute(url, baseUrl)),
      PageName(page.h1, page.title),
      PageElements(page.found),
      Map(page.forms, FormFor),
      NodeMetadata(now, now, 1))
  }

  /** The nodes a visit of `url` records: one for a page that loads, none
   *  for one that fails. */
  function PageNodes(url: string, site: string -> Option<Page>, baseUrl: string, nodeIdOf: string -> string, now: string): seq<AppNode> {
    match site(url)
    case Some(page) => [PageNode(url, page, baseUrl, nodeIdOf, now)]
    case None => []
  }

  /** The links a visit of `url` at `depth` follows: those of a page that
   *  loads, is above the depth limit and whose anchors could be read. */
  function PageLinks(url: string, depth: int, site: string -> Option<Page>, options: CrawlOptions,
                     resolve: (string, string) -> string): seq<Link> {
    match site(url)
    case Some(page) =>
      if depth < options.maxDepth && page.links.Some? then
        ExtractLinks(page.links.value, options.baseUrl, resolve)
      else []
    case None => []
  }

  /** The links that lead to addresses not yet visited, in page order and
   *  with repetitions. */
  function NewLinks(links: seq<Link>, visited: set<string>): seq<Link> {
    if |links| == 0 then []
    else
      var l := links[|links| - 1];
      NewLinks(links[..|links| - 1], visited) + (if l.url in visited then [] else [l])
  }

  /** The queue entries for the new links, one depth further. */
  function LinkItems(links: seq<Link>, visited: set<string>, depth: int): seq<QueueItem> {
    if |links| == 0 then []
    else
      var l := links[|links| - 1];
      LinkItems(links[..|links| - 1], visited, depth)
      + (if l.url in visited then [] else [QueueItem(l.url, depth + 1)])
  }

  /** The navigation edges for the new links, from the node `from`. */
  function LinkEdges(from: string, links: seq<Link>, visited: set<string>, nodeIdOf: string -> string): seq<AppEdge> {
    if |links| == 0 then []
    else
      var l := links[|links| - 1];
      LinkEdges(from, links[..|links| - 1], visited, nodeIdOf)
      + (if l.url in visited then [] else [AppEdge(from, nodeIdOf(l.url), NavigateEdge, Some(l.element))])
  }

  /** The new links are exactly the links to unvisited addresses, in
   *  order. */
  lemma {:induction false} NewLinksFilter(links: seq<Link>, visited: set<string>)
    ensures NewLinks(links, visited) == Filter(links, (l: Link) => l.url !in visited)
    decreases |links|
  {
    if |links| > 0 {
      var init := links[..|links| - 1];
      var l := links[|links| - 1];
      NewLinksFilter(init, visited);
      assert links == init + [l];
      FilterAppend(init, [l], (l: Link) => l.url !in visited);
    }
  }

  /** Each new link gives one queue entry, one level deeper, and one
   *  navigation edge from the current node to the link's node, carrying
   *  the anchor; entries and edges are in the same order. */
  lemma {:induction false} LinkItemsEdges(from: string, links: seq<Link>, visited: set<string>, depth: int, nodeIdOf: string -> string)
    ensures |LinkItems(links, visited, depth)| == |NewLinks(links, visited)|
    ensures |LinkEdges(from, links, visited, nodeIdOf)| == |NewLinks(links, visited)|
    ensures forall i :: 0 <= i < |NewLinks(links, visited)| ==>
      LinkItems(links, visited, depth)[i] == QueueItem(NewLinks(links, visited)[i].url, depth + 1)
    ensures forall i :: 0 <= i < |NewLinks(links, visited)| ==>
      LinkEdges(from, links, visited, nodeIdOf)[i]
        == AppEdge(from, nodeIdOf(NewLinks(links, visited)[i].url), NavigateEdge, Some(NewLinks(links, visited)[i].element))
    decreases |links|
  {
    if |links| > 0 {
      LinkItemsEdges(from, links[..|links| - 1], visited, depth, nodeIdOf);
    }
  }

  /** The crawl state as a value: visited addresses, the queue, and the
   *  nodes and edges recorded so far. */
  datatype CrawlState = CrawlState(
    visited: set<string>,
    queue: seq<QueueItem>,
    nodes: seq<AppNode>,
    edges: seq<AppEdge>)

  /** One turn of the crawl loop on a state with a non-empty queue: the
   *  head is dropped when it was visited already or lies below the depth
   *  limit; otherwise it is marked visited, its node (if the page loads)
   *  is recorded, and its unvisited links are queued one level deeper with
   *  an edge each. Either one more node is recorded, or none and the
   *  queue gets shorter. */
  function StepState(s: CrawlState, options: CrawlOptions, site: string -> Option<Page>,
                     resolve: (string, string) -> string, nodeIdOf: string -> string, now: string): (r: CrawlState)
    requires |s.queue| > 0
    ensures |r.nodes| == |s.nodes| + 1 || (|r.nodes| == |s.nodes| && |r.queue| < |s.queue|)
    ensures s.visited <= r.visited && s.nodes <= r.nodes && s.edges <= r.edges
    ensures r.visited == s.visited + {s.queue[0].url} || r.visited == s.visited
  {
    var item := s.queue[0];
    if item.url in s.visited || item.depth > options.maxDepth then
      s.(queue := s.queue[1..])
    else
      var v := s.visited + {item.url};
      var links := PageLinks(item.url, item.depth, site, options, resolve);
      CrawlState(
        v,
        s.queue[1..] + LinkItems(links, v, item.depth),
        s.nodes + PageNodes(item.url, site, options.baseUrl, nodeIdOf, now),
        s.edges + LinkEdges(nodeIdOf(item.url), links, v, nodeIdOf))
  }

  /** The crawl loop from state `s`: turns are taken until the queue is
   *  empty or `maxPages` nodes are recorded. The run ends on one of those
   *  two conditions, never passes `maxPages` nodes from a start within the
   *  limit, and only adds to what was visited and recorded. */
  function CrawlRun(s: CrawlState, options: CrawlOptions, site: string -> Option<Page>,
                    resolve: (string, string) -> string, nodeIdOf: string -> string, now: string): (r: CrawlState)
    ensures |r.queue| == 0 || |r.nodes| >= options.maxPages
    ensures |s.nodes| <= options.maxPages ==> |r.nodes| <= options.maxPages
    ensures s.visited <= r.visited && s.nodes <= r.nodes && s.edges <= r.edges
    decreases options.maxPages - |s.nodes|, |s.queue|
  {
    if |s.queue| == 0 || |s.nodes| >= options.maxPages then s
    else CrawlRun(StepState(s, options, site, resolve, nodeIdOf, now), options, site, resolve, nodeIdOf, now)
  }

  /** The state `crawl` starts from: the queue seeded with the base
   *  address at depth 0. */
  function Seeded(s: CrawlState, options: CrawlOptions): (r: CrawlState)
    ensures r.queue == s.queue + [QueueItem(options.baseUrl, 0)]
    ensures r.visited == s.visited && r.nodes == s.nodes && r.edges == s.edges
  {
    s.(queue := s.queue + [QueueItem(options.baseUrl, 0)])
  }

  /** A fresh crawl with room for a page and a non-negative depth limit
   *  always visits the base address. */
  lemma BaseVisited(options: CrawlOptions, site: string -> Option<Page>,
                    resolve: (string, string) -> string, nodeIdOf: string -> string, now: string)
    requires options.maxPages > 0 && options.maxDepth >= 0
    ensures options.baseUrl in CrawlRun(Seeded(CrawlState({}, [], [], []), options), options, site, resolve, nodeIdOf, now).visited
  {
    var s := Seeded(CrawlState({}, [], [], []), options);
    var t := StepState(s, options, site, resolve, nodeIdOf, now);
    assert s.queue[0] == QueueItem(options.baseUrl, 0);
    assert options.baseUrl in t.visited;
  }

  /** `PlaywrightCrawler`: the crawl state. */
  class PlaywrightCrawler {
    var visited: set<string>
    var queue: seq<QueueItem>
    var nodes: seq<AppNode>
    var edges: seq<AppEdge>

    /** Every node is a visited address, no address has two nodes, and
     *  every edge is a navigation edge from a recorded node. */
    ghost predicate Valid()
      reads this
    {
      && (forall i :: 0 <= i < |nodes| ==> nodes[i].url.Some? && nodes[i].url.value in visited)
      && (forall i, j :: 0 <= i < j < |nodes| ==> nodes[i].url != nodes[j].url)
      && (forall e :: e in edges ==> e.etype == NavigateEdge && e.from in KeySet(nodes, NodeId))
    }

    constructor()
      ensures Valid()
      ensures visited == {} && queue == [] && nodes == [] && edges == []
    {
      visited := {};
      queue := [];
      nodes := [];
      edges := [];
    }

    /** Queues the links to unvisited addresses and records an edge for
     *  each. */
    method EnqueueLinks(from: string, links: seq<Link>, depth: int, nodeIdOf: string -> string)
      requires Valid() && from in KeySet(nodes, NodeId)
      modifies this
      ensures Valid()
      ensures visited == old(visited) && nodes == old(nodes)
      ensures queue == old(queue) + LinkItems(links, visited, depth)
      ensures edges == old(edges) + LinkEdges(from, links, visited, nodeIdOf)
    {
      ghost var queue0, edges0 := queue, edges;
      for j := 0 to |links|
        invariant Valid()
        invariant visited == old(visited) && nodes == old(nodes)
        invariant queue == queue0 + LinkItems(links[..j], visited, depth)
        invariant edges == edges0 + LinkEdges(from, links[..j], visited, nodeIdOf)
      {
        assert links[..j + 1][..j] == links[..j];
        var link := links[j];
        if link.url !in visited {
          queue := queue + [QueueItem(link.url, depth + 1)];
          edges := edges + [AppEdge(from, nodeIdOf(link.url), NavigateEdge, Some(link.element))];
        }
      }
      assert links[..|links|] == links;
    }

    /** Records a new node; an address not yet visited keeps node
     *  addresses distinct. */
    method AddNode(node: AppNode)
      requires Valid()
      requires node.url.Some? && node.url.value in visited
      requires forall i :: 0 <= i < |nodes| ==> nodes[i].url != node.url
      modifies this
      ensures Valid()
      ensures visited == old(visited) && queue == old(queue) && edges == old(edges)
      ensures nodes == old(nodes) + [node]
      ensures node.id in KeySet(nodes, NodeId)
    {
      KeySetSnoc(nodes, node, NodeId);
      nodes := nodes + [node];
    }

    /** `crawlPage`: marks `url` visited, records its node when it loads
     *  and, above the depth limit, queues its unvisited links. */
    method CrawlPage(url: string, depth: int, options: CrawlOptions, site: string -> Option<Page>,
                     resolve: (string, string) -> string, nodeIdOf: string -> string, now: string)
      requires Valid() && url !in visited
      modifies this
      ensures Valid()
      ensures visited == old(visited) + {url}
      ensures nodes == old(nodes) + PageNodes(url, site, options.baseUrl, nodeIdOf, now)
      ensures queue == old(queue) + LinkItems(PageLinks(url, depth, site, options, resolve), visited, depth)
      ensures edges == old(edges) + LinkEdges(nodeIdOf(url), PageLinks(url, depth, site, options, resolve), visited, nodeIdOf)
    {
      visited := visited + {url};
      var loaded := site(url);
      if loaded.None? {
        assert queue == queue + [] && edges == edges + [];
        return;
      }
      var page := loaded.value;
      var elements := ExtractElements(page.found);
      var forms := ExtractForms(page.forms);
      var nodeId := nodeIdOf(url);
      var node := AppNode(
        nodeId,
        RouteNode,
        Some(url),
        Some(ExtractRoute(url, options.baseUrl)),
        PageName(page.h1, page.title),
        elements,
        forms,
        NodeMetadata(now, now, 1));
      AddNode(node);
      if depth < options.maxDepth && page.links.Some? {
        var links := ExtractLinks(page.links.value, options.baseUrl, resolve);
        EnqueueLinks(nodeId, links, depth, nodeIdOf);
      } else {
        assert queue == queue + [] && edges == edges + [];
      }
    }

    /** One turn of the crawl loop: the head of the queue is taken off and
     *  crawled unless it was visited already or lies below the depth
     *  limit. */
    method Step(options: CrawlOptions, site: string -> Option<Page>,
                resolve: (string, string) -> string, nodeIdOf: string -> string, now: string)
      requires Valid() && |queue| > 0
      modifies this
      ensures Valid()
      ensures State() == StepState(old(State()), options, site, resolve, nodeIdOf, now)
      ensures var item := old(queue)[0];
        if item.url in old(visited) || item.depth > options.maxDepth then
          visited == old(visited) && queue == old(queue)[1..] && nodes == old(nodes) && edges == old(edges)
        else
          && visited == old(visited) + {item.url}
          && nodes == old(nodes) + PageNodes(item.url, site, options.baseUrl, nodeIdOf, now)
          && queue == old(queue)[1..] + LinkItems(PageLinks(item.url, item.depth, site, options, resolve), visited, item.depth)
          && edges == old(edges) + LinkEdges(nodeIdOf(item.url), PageLinks(item.url, item.depth, site, options, resolve), visited, nodeIdOf)
    {
      var item := queue[0];
      queue := queue[1..];
      if item.url in visited || item.depth > options.maxDepth {
        return;
      }
      CrawlPage(item.url, item.depth, options, site, resolve, nodeIdOf, now);
    }

    /** The crawl state as a value. */
    function State(): CrawlState
      reads this
    {
      CrawlState(visited, queue, nodes, edges)
    }

    /** `crawl`: seeds the queue with the base address at depth 0 and takes
     *  entries off its front until it is empty or `maxPages` nodes are
     *  recorded; the final state is `CrawlRun` of the seeded state. */
    method Crawl(options: CrawlOptions, site: string -> Option<Page>,
                 resolve: (string, string) -> string, nodeIdOf: string -> string, now: string)
      returns (ns: seq<AppNode>, es: seq<AppEdge>)
      requires Valid()
      modifies this
      ensures Valid()
      ensures State() == CrawlRun(Seeded(old(State()), options), options, site, resolve, nodeIdOf, now)
      ensures ns == nodes && es == edges
      ensures |queue| == 0 || |nodes| >= options.maxPages
      ensures |old(nodes)| <= options.maxPages ==> |nodes| <= options.maxPages
      ensures old(visited) <= visited
      ensures old(nodes) <= nodes && old(edges) <= edges
    {
      ghost var start := Seeded(State(), options);
      queue := queue + [QueueItem(options.baseUrl, 0)];
      while |queue| > 0 && |nodes| < options.maxPages
        invariant Valid()
        invariant CrawlRun(State(), options, site, resolve, nodeIdOf, now)
               == CrawlRun(start, options, site, resolve, nodeIdOf, now)
        decreases options.maxPages - |nodes|, |queue|
      {
        ghost var s0 := State();
        Step(options, site, resolve, nodeIdOf, now);
        assert State() == StepState(s0, options, site, resolve, nodeIdOf, now);
      }
      return nodes, edges;
    }
  }
}
