/** The helpers that read guardrail results: JavaScript values of unknown
    shape, inspected with optional chaining, `in` and `??`. */
module Guardrails {
  import opened Base
  import opened Strings

  /** A JavaScript value as the guardrail service returns it. An object is
      its own properties in property order, each key once. */
  datatype Val =
    | Undefined
    | Null
    | Bool(b: bool)
    | Num(n: real)
    | Str(s: string)
    | Arr(items: seq<Val>)
    | Obj(fields: seq<Field>)

  datatype Field = Field(key: string, val: Val)

  /** JavaScript truthiness (NaN and -0 are not modelled). */
  predicate Truthy(v: Val) {
    match v
    case Undefined => false
    case Null => false
    case Bool(b) => b
    case Num(n) => n != 0.0
    case Str(s) => s != ""
    case _ => true
  }

  predicate Nullish(v: Val) {
    v == Undefined || v == Null
  }

  /** `a ?? b`. */
  function OrElse(a: Val, b: Val): (r: Val)
    ensures Nullish(a) ==> r == b
    ensures !Nullish(a) ==> r == a
  {
    if Nullish(a) then b else a
  }

  /** Whether an object has an own property `key`. */
  predicate HasKey(fields: seq<Field>, key: string) {
    exists i :: 0 <= i < |fields| && fields[i].key == key
  }

  /** The value of the first property called `key`. */
  function Lookup(fields: seq<Field>, key: string): (r: Val)
    ensures !HasKey(fields, key) ==> r == Undefined
    ensures HasKey(fields, key) ==> exists i :: 0 <= i < |fields| && fields[i].key == key && fields[i].val == r
  {
    if fields == [] then Undefined
    else if fields[0].key == key then fields[0].val
    else Lookup(fields[1..], key)
  }

  /** `v?.key` for the keys these helpers read: only an object has them. */
  function Prop(v: Val, key: string): (r: Val)
    ensures !v.Obj? ==> r == Undefined
  {
    if v.Obj? then Lookup(v.fields, key) else Undefined
  }

  /** `v?.tripwireTriggered === true`. */
  predicate Tripped(v: Val) {
    Prop(v, "tripwireTriggered") == Bool(true)
  }

  /** `guardrailsHasTripwire(results)`; a missing list is `None`. */
  function HasTripwire(results: Option<seq<Val>>): (r: bool)
    ensures r <==> results.Some? && exists i :: 0 <= i < |results.value| && Tripped(results.value[i])
  {
    AnyTripped(results.GetOr([]))
  }

  /** `.some(r => r?.tripwireTriggered === true)`. */
  function AnyTripped(rs: seq<Val>): (r: bool)
    ensures r <==> exists i :: 0 <= i < |rs| && Tripped(rs[i])
  {
    if rs == [] then false
    else Tripped(rs[0]) || AnyTripped(rs[1..])
  }

  // ---------------------------------------------------------------------
  // Safe text

  /** The outcome of `r?.info && (key in r.info)` on one result. */
  datatype Probe = Skip | Hit | Fault

  /** `in` throws a TypeError when `info` is a truthy primitive; an array
      has no such key. */
  function ProbeKey(r: Val, key: string): (p: Probe)
    ensures p == Hit <==> Prop(r, "info").Obj? && HasKey(Prop(r, "info").fields, key)
    ensures p == Fault <==> Truthy(Prop(r, "info")) && !Prop(r, "info").Obj? && !Prop(r, "info").Arr?
  {
    var info := Prop(r, "info");
    if !Truthy(info) then Skip
    else if info.Obj? then (if HasKey(info.fields, key) then Hit else Skip)
    else if info.Arr? then Skip
    else Fault
  }

  /** What `getGuardrailSafeText` returns, as a declarative reference: the
      first result probed for `checked_text` that is not skipped decides;
      failing that, the first result with `anonymized_text`; failing that,
      the fallback. */
  function SafeText(results: Option<seq<Val>>, fallback: string): Outcome<Val> {
    var rs := results.GetOr([]);
    var i := FirstNotSkipped(rs, "checked_text");
    if i < |rs| then
      (if ProbeKey(rs[i], "checked_text") == Fault then Threw("TypeError")
       else Returned(OrElse(Prop(Prop(rs[i], "info"), "checked_text"), Str(fallback))))
    else
      var j := FirstNotSkipped(rs, "anonymized_text");
      Returned(OrElse(if j < |rs| then Prop(Prop(rs[j], "info"), "anonymized_text") else Undefined, Str(fallback)))
  }

  /** The index of the first result whose probe for `key` is not `Skip`, or
      the length when there is none. */
  function FirstNotSkipped(rs: seq<Val>, key: string): (i: nat)
    ensures i <= |rs|
    ensures forall j :: 0 <= j < i ==> ProbeKey(rs[j], key) == Skip
    ensures i < |rs| ==> ProbeKey(rs[i], key) != Skip
  {
    if rs == [] then 0
    else if ProbeKey(rs[0], key) != Skip then 0
    else 1 + FirstNotSkipped(rs[1..], key)
  }

  /** `getGuardrailSafeText(results, fallback)`: a `for` loop with an early
      return, then a `find`. */
  method GetGuardrailSafeText(results: Option<seq<Val>>, fallback: string) returns (r: Outcome<Val>)
    ensures r == SafeText(results, fallback)
  {
    var rs := results.GetOr([]);
    for i := 0 to |rs|
      invariant forall j :: 0 <= j < i ==> ProbeKey(rs[j], "checked_text") == Skip
    {
      var info := Prop(rs[i], "info");
      if Truthy(info) {
        if !info.Obj? && !info.Arr? {
          FirstIs(rs, "checked_text", i);
          return Threw("TypeError");
        }
        if info.Obj? && HasKey(info.fields, "checked_text") {
          FirstIs(rs, "checked_text", i);
          return Returned(OrElse(Prop(info, "checked_text"), Str(fallback)));
        }
      }
    }
    FirstIs(rs, "checked_text", |rs|);
    var j := FirstNotSkipped(rs, "anonymized_text");
    var pii := if j < |rs| then rs[j] else Undefined;
    return Returned(OrElse(Prop(Prop(pii, "info"), "anonymized_text"), Str(fallback)));
  }

  /** The first non-skipped index is determined by the probes before it. */
  lemma {:induction false} FirstIs(rs: seq<Val>, key: string, i: nat)
    requires i <= |rs|
    requires forall j :: 0 <= j < i ==> ProbeKey(rs[j], key) == Skip
    requires i < |rs| ==> ProbeKey(rs[i], key) != Skip
    ensures FirstNotSkipped(rs, key) == i
  {
    if i > 0 {
      assert ProbeKey(rs[0], key) == Skip;
      FirstIs(rs[1..], key, i - 1);
    }
  }

  /** The first result that carries `checked_text` decides, whatever follows it. */
  lemma FirstCheckedWins(rs: seq<Val>, i: nat, later: seq<Val>, fallback: string)
    requires i < |rs| && ProbeKey(rs[i], "checked_text") == Hit
    requires forall j :: 0 <= j < i ==> ProbeKey(rs[j], "checked_text") == Skip
    ensures SafeText(Some(rs + later), fallback)
         == Returned(OrElse(Prop(Prop(rs[i], "info"), "checked_text"), Str(fallback)))
  {
    var all := rs + later;
    FirstIs(all, "checked_text", i);
  }

  /** With no `checked_text` anywhere, the first `anonymized_text` is used. */
  lemma AnonymizedUsed(rs: seq<Val>, i: nat, fallback: string)
    requires forall j :: 0 <= j < |rs| ==> ProbeKey(rs[j], "checked_text") == Skip
    requires i < |rs| && ProbeKey(rs[i], "anonymized_text") == Hit
    requires forall j :: 0 <= j < i ==> ProbeKey(rs[j], "anonymized_text") == Skip
    ensures SafeText(Some(rs), fallback)
         == Returned(OrElse(Prop(Prop(rs[i], "info"), "anonymized_text"), Str(fallback)))
  {
    FirstIs(rs, "checked_text", |rs|);
    FirstIs(rs, "anonymized_text", i);
  }

  /** A missing list, or one carrying neither key, gives the fallback. */
  lemma FallbackUsed(rs: seq<Val>, fallback: string)
    requires forall j :: 0 <= j < |rs| ==> ProbeKey(rs[j], "checked_text") == Skip
    requires forall j :: 0 <= j < |rs| ==> ProbeKey(rs[j], "anonymized_text") == Skip
    ensures SafeText(Some(rs), fallback) == Returned(Str(fallback))
    ensures SafeText(None, fallback) == Returned(Str(fallback))
  {
    FirstIs(rs, "checked_text", |rs|);
    FirstIs(rs, "anonymized_text", |rs|);
  }

  /** A result whose `info` is a truthy primitive makes the helper throw,
      unless an earlier result already carried `checked_text`. */
  lemma PrimitiveInfoThrows(rs: seq<Val>, i: nat, fallback: string)
    requires i < |rs| && ProbeKey(rs[i], "checked_text") == Fault
    requires forall j :: 0 <= j < i ==> ProbeKey(rs[j], "checked_text") == Skip
    ensures SafeText(Some(rs), fallback).Threw?
  {
    FirstIs(rs, "checked_text", i);
  }

  // ---------------------------------------------------------------------
  // Fail report

  /** The guardrail names the fail report looks up. */
  const PiiName: string := "Contains PII"
  const ModerationName: string := "Moderation"
  const JailbreakName: string := "Jailbreak"
  const HallucinationName: string := "Hallucination Detection"
  const NsfwName: string := "NSFW Text"
  const UrlFilterName: string := "URL Filter"
  const CustomCheckName: string := "Custom Prompt Check"
  const PromptInjectionName: string := "Prompt Injection Detection"

  /** `get(name)`: the first result whose `info.guardrail_name` (or, when
      that is nullish, `info.guardrailName`) is `name`; Undefined if none. */
  function Named(rs: seq<Val>, name: string): (r: Val)
    ensures r != Undefined ==> r in rs && NameOf(r) == Str(name)
    ensures r == Undefined <==> forall i :: 0 <= i < |rs| ==> NameOf(rs[i]) != Str(name)
    ensures r != Undefined ==>
      exists i :: 0 <= i < |rs| && rs[i] == r && forall j :: 0 <= j < i ==> NameOf(rs[j]) != Str(name)
  {
    if rs == [] then Undefined
    else if NameOf(rs[0]) == Str(name) then rs[0]
    else Named(rs[1..], name)
  }

  function NameOf(r: Val): Val {
    OrElse(Prop(Prop(r, "info"), "guardrail_name"), Prop(Prop(r, "info"), "guardrailName"))
  }

  /** `Object.entries(v)` for the values it yields entries for: an object's
      properties, an array's indices. A string's entries are one-character
      strings, never arrays, so leaving them out changes no count. */
  function Entries(v: Val): (r: seq<Field>)
    ensures v.Obj? ==> r == v.fields
  {
    match v
    case Obj(fields) => fields
    case Arr(items) => seq(|items|, k requires 0 <= k < |items| => Field(NatToString(k), items[k]))
    case _ => []
  }

  /** `piiCounts`: `"key:length"` for every array-valued entry, in order. */
  function PiiCounts(entries: seq<Field>): (r: seq<string>)
    ensures |r| <= |entries|
    ensures |r| == 0 <==> forall i :: 0 <= i < |entries| ==> !entries[i].val.Arr?
  {
    if entries == [] then []
    else
      var rest := PiiCounts(entries[1..]);
      var e := entries[0];
      if e.val.Arr? then [e.key + ":" + NatToString(|e.val.items|)] + rest else rest
  }

  /** Every count names an array-valued entry and its length. */
  lemma {:induction false} PiiCountsNameArrays(entries: seq<Field>)
    ensures forall s :: s in PiiCounts(entries) ==>
      exists i :: 0 <= i < |entries| && entries[i].val.Arr?
        && s == entries[i].key + ":" + NatToString(|entries[i].val.items|)
  {
    if entries != [] {
      PiiCountsNameArrays(entries[1..]);
      forall s | s in PiiCounts(entries)
        ensures exists i :: (0 <= i < |entries| && entries[i].val.Arr?
                              && s == entries[i].key + ":" + NatToString(|entries[i].val.items|))
      {
        if s !in PiiCounts(entries[1..]) {
          assert entries[0].val.Arr?;
        } else {
          var k :| 0 <= k < |entries[1..]| && entries[1..][k].val.Arr?
            && s == entries[1..][k].key + ":" + NatToString(|entries[1..][k].val.items|);
          assert entries[k + 1] == entries[1..][k];
        }
      }
    }
  }

  /** `(v ?? []).length > 0` for the values a `length` comes from: arrays
      and strings, and objects with a numeric `length` property. */
  predicate NonEmpty(v: Val) {
    match OrElse(v, Arr([]))
    case Arr(items) => |items| > 0
    case Str(s) => |s| > 0
    case Obj(_) => var n := Prop(OrElse(v, Arr([])), "length"); n.Num? && n.n > 0.0
    case _ => false
  }

  datatype PiiReport = PiiReport(failed: bool, detectedCounts: seq<string>)
  datatype ModerationReport = ModerationReport(failed: bool, flaggedCategories: Val)
  datatype HallucinationReport = HallucinationReport(
    failed: bool, reasoning: Val, hallucinationType: Val,
    hallucinatedStatements: Val, verifiedStatements: Val)

  /** The object `buildGuardrailFailOutput` returns. */
  datatype FailOutput = FailOutput(
    pii: PiiReport,
    moderation: ModerationReport,
    jailbreak: bool,
    hallucination: HallucinationReport,
    nsfw: bool,
    urlFilter: bool,
    customPromptCheck: bool,
    promptInjection: bool)

  /** `buildGuardrailFailOutput(results)`. */
  function BuildFailOutput(results: Option<seq<Val>>): (r: FailOutput)
    ensures var rs := results.GetOr([]);
      var pii := Named(rs, PiiName);
      var entries := Entries(OrElse(Prop(Prop(pii, "info"), "detected_entities"), Obj([])));
      && (r.pii.failed <==> (exists i :: 0 <= i < |entries| && entries[i].val.Arr?) || Tripped(pii))
      && (r.moderation.failed <==> (Tripped(Named(rs, ModerationName))
                                    || NonEmpty(Prop(Prop(Named(rs, ModerationName), "info"), "flagged_categories"))))
      && (r.jailbreak <==> Tripped(Named(rs, JailbreakName)))
      && (r.hallucination.failed <==> Tripped(Named(rs, HallucinationName)))
      && (r.nsfw <==> Tripped(Named(rs, NsfwName)))
      && (r.urlFilter <==> Tripped(Named(rs, UrlFilterName)))
      && (r.customPromptCheck <==> Tripped(Named(rs, CustomCheckName)))
      && (r.promptInjection <==> Tripped(Named(rs, PromptInjectionName)))
  {
    var rs := results.GetOr([]);
    var pii := Named(rs, PiiName);
    var mod := Named(rs, ModerationName);
    var hal := Named(rs, HallucinationName);
    var halInfo := Prop(hal, "info");
    var counts := PiiCounts(Entries(OrElse(Prop(Prop(pii, "info"), "detected_entities"), Obj([]))));
    FailOutput(
      PiiReport(|counts| > 0 || Tripped(pii), counts),
      ModerationReport(Tripped(mod) || NonEmpty(Prop(Prop(mod, "info"), "flagged_categories")),
                       Prop(Prop(mod, "info"), "flagged_categories")),
      Tripped(Named(rs, JailbreakName)),
      HallucinationReport(Tripped(hal), Prop(halInfo, "reasoning"), Prop(halInfo, "hallucination_type"),
                          Prop(halInfo, "hallucinated_statements"), Prop(halInfo, "verified_statements")),
      Tripped(Named(rs, NsfwName)),
      Tripped(Named(rs, UrlFilterName)),
      Tripped(Named(rs, CustomCheckName)),
      Tripped(Named(rs, PromptInjectionName)))
  }

  /** A failed category in the report comes from a result that tripped or
      reported something; with no tripwire at all only PII entities or
      flagged moderation categories can mark a failure. */
  lemma {:induction false} NoTripwireFailures(rs: seq<Val>)
    requires !HasTripwire(Some(rs))
    ensures var r := BuildFailOutput(Some(rs));
      !r.jailbreak && !r.hallucination.failed && !r.nsfw && !r.urlFilter
      && !r.customPromptCheck && !r.promptInjection
  {
    NoneTripped(rs);
    var r := BuildFailOutput(Some(rs));
    assert r.jailbreak == Tripped(Named(rs, JailbreakName));
    assert r.hallucination.failed == Tripped(Named(rs, HallucinationName));
    assert r.nsfw == Tripped(Named(rs, NsfwName));
    assert r.urlFilter == Tripped(Named(rs, UrlFilterName));
    assert r.customPromptCheck == Tripped(Named(rs, CustomCheckName));
    assert r.promptInjection == Tripped(Named(rs, PromptInjectionName));
  }

  /** Without a tripwire, no result looked up by name has tripped. */
  lemma NoneTripped(rs: seq<Val>)
    requires !HasTripwire(Some(rs))
    ensures forall name :: !Tripped(Named(rs, name))
  {
    forall name {
      NamedTrippedIsTripwire(rs, name);
    }
  }

  /** A named result that tripped is a tripwire in the list. */
  lemma {:induction false} NamedTrippedIsTripwire(rs: seq<Val>, name: string)
    ensures Tripped(Named(rs, name)) ==> exists i :: 0 <= i < |rs| && Tripped(rs[i])
  {
    if rs != [] && NameOf(rs[0]) != Str(name) {
      NamedTrippedIsTripwire(rs[1..], name);
      if Tripped(Named(rs, name)) {
        var i :| 0 <= i < |rs[1..]| && Tripped(rs[1..][i]);
        assert rs[i + 1] == rs[1..][i];
      }
    }
  }
}
