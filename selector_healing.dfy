/** Selector healing: when an element's primary selector fails, candidate
 *  selectors derived from its metadata (or stored with its signature) are
 *  ranked by stability and tried in turn, each try logged in the knowledge
 *  base. */
module SelectorHealing {
  import opened Wrappers
  import opened Text
  import opened Seqs
  import opened Sorting
  import opened GraphModel
  import opened KnowledgeStore

  datatype HealingResult = HealingResult(success: bool, selector: Option<string>, attempts: nat)

  /** `[key="value"]`. */
  function AttrSelector(key: string, value: string): string {
    "[" + key + "=\"" + value + "\"]"
  }

  /** The text a `:has-text` candidate matches: the trimmed text cut to 30
   *  characters. */
  function ShortText(text: string): (r: string)
    ensures |r| <= 30
    ensures r <= Trim(text)
    ensures |Trim(text)| <= 30 ==> r == Trim(text)
  {
    Take(Trim(text), 30)
  }

  /** The eight candidates in their fixed order; `None` where the element
   *  lacks the metadata a candidate needs. */
  function CandidateSlots(e: ElementDescriptor): seq<Option<string>> {
    var attrs := e.attributes;
    [ if AttrTruthy(attrs, "aria-label") then Some(AttrSelector("aria-label", attrs["aria-label"])) else None,
      if e.role != "" && Truthy(e.name) then Some(AttrSelector("role", e.role) + AttrSelector("name", e.name.value)) else None,
      if Truthy(e.text) && (e.etype == "button" || e.etype == "link") then Some(e.etype + ":has-text(\"" + ShortText(e.text.value) + "\")") else None,
      if AttrTruthy(attrs, "data-testid") then Some(AttrSelector("data-testid", attrs["data-testid"])) else None,
      if AttrTruthy(attrs, "data-test") then Some(AttrSelector("data-test", attrs["data-test"])) else None,
      if AttrTruthy(attrs, "id") then Some("#" + attrs["id"]) else None,
      if Truthy(e.placeholder) then Some(AttrSelector("placeholder", e.placeholder.value)) else None,
      if e.etype != "" && AttrTruthy(attrs, "name") then Some(e.etype + AttrSelector("name", attrs["name"])) else None ]
  }

  /** The values of the present slots, in slot order. */
  function Present(slots: seq<Option<string>>): seq<string>
    decreases |slots|
  {
    if |slots| == 0 then []
    else
      var last := slots[|slots| - 1];
      Present(slots[..|slots| - 1]) + (if last.Some? then [last.value] else [])
  }

  /** A value is listed exactly when some slot holds it. */
  lemma {:induction false} PresentSpec(slots: seq<Option<string>>)
    ensures forall x :: x in Present(slots) ==> exists k :: 0 <= k < |slots| && slots[k] == Some(x)
    ensures forall k :: 0 <= k < |slots| && slots[k].Some? ==> slots[k].value in Present(slots)
    decreases |slots|
  {
    if |slots| > 0 {
      var init := slots[..|slots| - 1];
      PresentSpec(init);
      forall x | x in Present(slots) ensures exists k :: 0 <= k < |slots| && slots[k] == Some(x) {
        if x in Present(init) {
          var k :| 0 <= k < |init| && init[k] == Some(x);
          assert slots[k] == Some(x);
        } else {
          assert slots[|slots| - 1] == Some(x);
        }
      }
      forall k | 0 <= k < |slots| && slots[k].Some? ensures slots[k].value in Present(slots) {
        if k < |init| {
          assert init[k] == slots[k];
        }
      }
    }
  }

  /** `generateAlternativeSelectors`: the present candidates, each once. */
  function Alternatives(e: ElementDescriptor): seq<string> {
    Dedup(Present(CandidateSlots(e)))
  }

  /** The generated list holds a selector exactly when one of the
   *  candidates whose metadata is present produces it, holds it once, and
   *  keeps the order in which the candidates first produce it. */
  lemma AlternativesSpec(e: ElementDescriptor)
    ensures forall x :: x in Alternatives(e) ==> exists k :: 0 <= k < 8 && CandidateSlots(e)[k] == Some(x)
    ensures forall k :: 0 <= k < 8 && CandidateSlots(e)[k].Some? ==> CandidateSlots(e)[k].value in Alternatives(e)
    ensures Distinct(Alternatives(e))
    ensures InFirstOccurrenceOrder(Alternatives(e), Present(CandidateSlots(e)))
  {
    var slots := CandidateSlots(e);
    PresentSpec(slots);
    DedupMembers(Present(slots));
    DedupOrder(Present(slots));
  }

  /** `generateAlternativeSelectors`, pushing each present candidate in
   *  order and then removing repeats. */
  method GenerateAlternativeSelectors(e: ElementDescriptor) returns (r: seq<string>)
    ensures r == Alternatives(e)
  {
    var slots := CandidateSlots(e);
    var alternatives: seq<string> := [];
    var k := 0;
    while k < |slots|
      invariant 0 <= k <= |slots|
      invariant alternatives == Present(slots[..k])
    {
      if slots[k].Some? {
        alternatives := alternatives + [slots[k].value];
      }
      assert slots[..k + 1][..k] == slots[..k];
      k := k + 1;
    }
    assert slots[..k] == slots;
    r := Dedup(alternatives);
  }

  /** How stable a selector is thought to be: the first rule that applies. */
  function Score(selector: string): (r: int)
    ensures r in {100, 90, 80, 70, 60, 40}
    ensures r == 100 <==> Contains(selector, "data-testid")
  {
    if Contains(selector, "data-testid") then 100
    else if StartsWith(selector, "#") then 90
    else if Contains(selector, "aria-label") then 80
    else if Contains(selector, "[role=") then 70
    else if Contains(selector, ":has-text") then 60
    else 40
  }

  /** The comparator: a higher score first, equal scores in string order. */
  predicate RankLe(a: string, b: string) {
    Score(a) > Score(b) || (Score(a) == Score(b) && LexLe(a, b))
  }

  lemma RankLeOrders()
    ensures TotalPreorder(RankLe)
  {
    forall a, b ensures RankLe(a, b) || RankLe(b, a) {
      LexLeTotal(a, b);
    }
    forall a, b, c | RankLe(a, b) && RankLe(b, c) ensures RankLe(a, c) {
      if Score(a) == Score(b) == Score(c) {
        LexLeTrans(a, b, c);
      }
    }
  }

  /** `rankAlternativeSelectors`: a sorted copy; the caller's list is a
   *  value and stays as it was. */
  function Rank(selectors: seq<string>): seq<string> {
    Sort(selectors, RankLe)
  }

  /** Ranking only reorders, puts higher scores first, and orders equal
   *  scores by string order. */
  lemma RankSpec(selectors: seq<string>)
    ensures multiset(Rank(selectors)) == multiset(selectors)
    ensures forall i, j :: 0 <= i < j < |Rank(selectors)| ==> Score(Rank(selectors)[i]) >= Score(Rank(selectors)[j])
    ensures forall i, j :: (0 <= i < j < |Rank(selectors)| && Score(Rank(selectors)[i]) == Score(Rank(selectors)[j])) ==> LexLe(Rank(selectors)[i], Rank(selectors)[j])
  {
    SortPermutes(selectors, RankLe);
    RankLeOrders();
    SortSorted(selectors, RankLe);
  }

  lemma TestIdScore()
    ensures Score("[data-testid=\"save\"]") == 100
  {
    assert OccursAt("[data-testid=\"save\"]", "data-testid", 1);
    ContainsWhenOccurs("[data-testid=\"save\"]", "data-testid", 1);
  }

  lemma IdScore()
    ensures Score("#save-btn") < 100
  {
    assert forall j :: !OccursAt("#save-btn", "data-testid", j);
  }

  lemma TextScore()
    ensures Score("button:has-text(\"Save\")") < 100
  {
    var sel := "button:has-text(\"Save\")";
    forall j | 0 <= j && j + 11 <= |sel| ensures !OccursAt(sel, "data-testid", j) {
      assert sel[j..j + 11][0] == sel[j];
      assert sel[j..j + 11][1] == sel[j + 1];
    }
  }

  /** A data-testid selector outranks an id and a text selector. */
  lemma TestIdRanksFirst()
    ensures Rank(["#save-btn", "[data-testid=\"save\"]", "button:has-text(\"Save\")"])[0] == "[data-testid=\"save\"]"
  {
    var input := ["#save-btn", "[data-testid=\"save\"]", "button:has-text(\"Save\")"];
    TestIdScore();
    IdScore();
    TextScore();
    RankSpec(input);
    var r := Rank(input);
    assert r[0] in multiset(input);
    assert input[1] in multiset(r);
    var k :| 0 <= k < |r| && r[k] == input[1];
    assert Score(r[0]) >= Score(r[k]);
  }

  /** The candidates healing tries: the signature's stored list when the
   *  element has a signature, otherwise the generated list, ranked. */
  function HealingCandidates(signatures: seq<ElementSignature>, e: ElementDescriptor): seq<string> {
    match SignatureIndex(signatures, e.id)
    case Some(i) => Rank(signatures[i].alternativeSelectors)
    case None => Rank(Alternatives(e))
  }

  /** The outcome of trying `candidates` in order until one works. */
  function Healed(candidates: seq<string>, works: string -> bool): HealingResult {
    match FindIndex(candidates, works)
    case Some(k) => HealingResult(true, Some(candidates[k]), k + 1)
    case None => HealingResult(false, None, |candidates|)
  }

  /** Success means some candidate works; the selector returned is the first
   *  that works and `attempts` is its 1-based position; on failure every
   *  candidate was tried and none worked. */
  lemma HealedSpec(candidates: seq<string>, works: string -> bool)
    ensures var h := Healed(candidates, works);
      && (h.success <==> exists k :: 0 <= k < |candidates| && works(candidates[k]))
      && h.attempts <= |candidates|
      && (h.success ==> 1 <= h.attempts && h.selector == Some(candidates[h.attempts - 1]) && works(h.selector.value))
      && (h.success ==> forall j :: 0 <= j < h.attempts - 1 ==> !works(candidates[j]))
      && (!h.success ==> h.selector.None? && h.attempts == |candidates|)
  {
  }

  /** The attempt rows logged for trying `tried` in order, numbered on from
   *  `start`. */
  function AttemptRows(start: nat, signatureId: string, tried: seq<string>, works: string -> bool,
                       timestamp: string, context: Option<string>): (r: seq<SelectorAttempt>)
    ensures |r| == |tried|
    decreases |tried|
  {
    if |tried| == 0 then []
    else
      var last := tried[|tried| - 1];
      AttemptRows(start, signatureId, tried[..|tried| - 1], works, timestamp, context)
        + [AttemptRow(start + |tried|, AttemptInput(signatureId, last, works(last), timestamp, context))]
  }

  /** Each tried selector is logged once, in order, with its outcome. */
  lemma {:induction false} AttemptRowsSpec(start: nat, signatureId: string, tried: seq<string>, works: string -> bool,
                                          timestamp: string, context: Option<string>)
    ensures forall i :: 0 <= i < |tried| ==>
      AttemptRows(start, signatureId, tried, works, timestamp, context)[i]
        == SelectorAttempt(start + i + 1, signatureId, tried[i], works(tried[i]), timestamp, NullIfEmpty(context))
    decreases |tried|
  {
    if |tried| > 0 {
      AttemptRowsSpec(start, signatureId, tried[..|tried| - 1], works, timestamp, context);
    }
  }

  lemma AttemptRowsSnoc(start: nat, signatureId: string, tried: seq<string>, sel: string, works: string -> bool,
                        timestamp: string, context: Option<string>)
    ensures AttemptRows(start, signatureId, tried + [sel], works, timestamp, context)
      == AttemptRows(start, signatureId, tried, works, timestamp, context)
         + [AttemptRow(start + |tried| + 1, AttemptInput(signatureId, sel, works(sel), timestamp, context))]
  {
    assert (tried + [sel])[..|tried|] == tried;
  }

  /** Logging candidate `k` after the first `k` extends the log of the
   *  first `k + 1`. */
  lemma AttemptRowsNext(before: seq<SelectorAttempt>, signatureId: string, alternatives: seq<string>, k: nat,
                        works: string -> bool, timestamp: string, context: Option<string>)
    requires k < |alternatives|
    ensures var logged := before + AttemptRows(|before|, signatureId, alternatives[..k], works, timestamp, context);
      logged + [AttemptRow(|logged| + 1, AttemptInput(signatureId, alternatives[k], works(alternatives[k]), timestamp, context))]
      == before + AttemptRows(|before|, signatureId, alternatives[..k + 1], works, timestamp, context)
  {
    assert alternatives[..k + 1] == alternatives[..k] + [alternatives[k]];
    AttemptRowsSnoc(|before|, signatureId, alternatives[..k], alternatives[k], works, timestamp, context);
  }

  /** The first working candidate decides the outcome. */
  lemma HealedAt(candidates: seq<string>, works: string -> bool, k: nat)
    requires k < |candidates| && works(candidates[k])
    requires forall j :: 0 <= j < k ==> !works(candidates[j])
    ensures Healed(candidates, works) == HealingResult(true, Some(candidates[k]), k + 1)
  {
  }

  /** The ranked candidates `attemptSelectorHealing` tries. */
  method RankedCandidates(element: ElementDescriptor, kb: KnowledgeBase) returns (alternatives: seq<string>)
    ensures alternatives == HealingCandidates(kb.signatures, element)
  {
    var sig := kb.GetSignature(element.id);
    var listed;
    if sig.Some? {
      listed := sig.value.alternativeSelectors;
    } else {
      listed := GenerateAlternativeSelectors(element);
    }
    alternatives := Rank(listed);
    match SignatureIndex(kb.signatures, element.id)
    case Some(i) =>
      assert sig == Some(kb.signatures[i]);
    case None =>
  }

  /** The loop of `attemptSelectorHealing`: try each candidate in order,
   *  log every try, and bump the signature's success counter on the first
   *  success or its fail counter when none works. */
  method TryInOrder(kb: KnowledgeBase, signatureId: string, alternatives: seq<string>, works: string -> bool,
                    context: Option<string>, timestamp: string) returns (result: HealingResult)
    requires kb.Valid()
    modifies kb
    ensures kb.Valid()
    ensures result == Healed(alternatives, works)
    ensures kb.attempts == old(kb.attempts)
      + AttemptRows(|old(kb.attempts)|, signatureId, alternatives[..result.attempts], works, timestamp, context)
    ensures kb.signatures == Bumped(old(kb.signatures), signatureId, result.success)
    ensures kb.failures == old(kb.failures) && kb.flakyTests == old(kb.flakyTests)
  {
    ghost var before := kb.attempts;
    var attempts := 0;
    while attempts < |alternatives|
      invariant 0 <= attempts <= |alternatives|
      invariant kb.Valid()
      invariant forall j :: 0 <= j < attempts ==> !works(alternatives[j])
      invariant kb.attempts == before + AttemptRows(|before|, signatureId, alternatives[..attempts], works, timestamp, context)
      invariant kb.signatures == old(kb.signatures) && kb.failures == old(kb.failures) && kb.flakyTests == old(kb.flakyTests)
    {
      var sel := alternatives[attempts];
      var success := works(sel);
      kb.RecordAttempt(AttemptInput(signatureId, sel, success, timestamp, context));
      AttemptRowsNext(before, signatureId, alternatives, attempts, works, timestamp, context);
      attempts := attempts + 1;
      if success {
        kb.IncrementSuccess(signatureId);
        HealedAt(alternatives, works, attempts - 1);
        return HealingResult(true, Some(sel), attempts);
      }
    }
    assert alternatives[..attempts] == alternatives;
    kb.IncrementFail(signatureId);
    return HealingResult(false, None, attempts);
  }

  /** `attemptSelectorHealing`. The page is the oracle `works`. The
   *  source reads the clock once per attempt; here one reading,
   *  `timestamp`, stamps every attempt. */
  method AttemptSelectorHealing(element: ElementDescriptor, kb: KnowledgeBase, works: string -> bool,
                                context: Option<string>, timestamp: string) returns (result: HealingResult)
    requires kb.Valid()
    modifies kb
    ensures kb.Valid()
    ensures result == Healed(HealingCandidates(old(kb.signatures), element), works)
    ensures kb.attempts == old(kb.attempts)
      + AttemptRows(|old(kb.attempts)|, element.id, HealingCandidates(old(kb.signatures), element)[..result.attempts],
                    works, timestamp, context)
    ensures kb.signatures == Bumped(old(kb.signatures), element.id, result.success)
    ensures kb.failures == old(kb.failures) && kb.flakyTests == old(kb.flakyTests)
  {
    var alternatives := RankedCandidates(element, kb);
    result := TryInOrder(kb, element.id, alternatives, works, context, timestamp);
  }
}
