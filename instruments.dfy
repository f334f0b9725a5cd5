/**
 * The `/instruments` route of server/Instuments/index.ts: for every
 * questionnaire the upstream API lists, look up its telephone-operations
 * start date, decide whether it is active today, keep the active ones, add
 * the derived fields, and group them by survey.
 *
 * The outside world is a `Services` value: what each start-date lookup
 * produced (a response, or an exception), the clock `Date.now()`, and
 * `Date.parse`, whose None stands for NaN. The concurrent `Promise.all`
 * becomes an order-preserving pass over the list.
 */
module Instruments {
  import opened Wrappers
  import opened JsStrings
  import FieldPeriod

  /** A questionnaire as the upstream API lists it. */
  datatype Questionnaire = Questionnaire(name: string, installDate: string, serverParkName: string, activeToday: bool)

  /** A questionnaire with the fields `addExtraInstrumentFields` derives. */
  datatype Instrument = Instrument(
    name: string, installDate: string, serverParkName: string, activeToday: bool,
    surveyTLA: string, link: string, fieldPeriod: string)

  /** One entry of the response: a survey code and its instruments, under the key `questionnaires`. */
  datatype Survey = Survey(survey: string, questionnaires: seq<Instrument>)

  /** The decoded body of a start-date reply: JSON `null`, or a value whose `tostartdate` is read (None: null or missing). */
  datatype Body = NullBody | Payload(tostartdate: Option<string>)

  datatype LookupResponse = LookupResponse(status: int, contentType: Option<string>, body: Body)

  /** What one start-date lookup produced: a response, or an exception before any response. */
  datatype Lookup = Responded(response: LookupResponse) | TokenUnavailable | TransportFailed

  /** Why the route fails; every one of these becomes a 500 reply. */
  datatype Failure =
    | QuestionnairesUnavailable   // the upstream questionnaire list could not be fetched
    | TokenFailed                 // `getAuthHeader` rejected
    | LookupTransportFailed       // the start-date request itself threw (network, timeout)
    | StatusRejected(status: int) // `validateStatus` refused a status below 200
    | NullBodyRead                // `response.data.tostartdate` on a JSON `null` body

  /** The collaborators the route consults. */
  datatype Services = Services(lookup: Questionnaire -> Lookup, nowMs: int, parseDate: string -> Option<int>)

  const JsonContentType := "application/json"
  const LayoutSuffix := "?LayoutSet=CATI-Interviewer_Large"

  /**
   * `getToStartDate`: the start date a lookup yields, None for "not set".
   * Exceptions and statuses below 200 fail; any other status but 200 gives
   * None; so does a 200 whose content type is not exactly "application/json".
   */
  function GetToStartDate(lookup: Lookup): (r: Result<Option<string>, Failure>)
    ensures lookup.TokenUnavailable? ==> r == Failure(TokenFailed)
    ensures lookup.TransportFailed? ==> r == Failure(LookupTransportFailed)
    ensures lookup.Responded? && lookup.response.status < 200 ==> r == Failure(StatusRejected(lookup.response.status))
    ensures lookup.Responded? && lookup.response.status > 200 ==> r == Success(None)
    ensures lookup.Responded? && lookup.response.status == 200 && lookup.response.contentType != Some(JsonContentType)
            ==> r == Success(None)
    ensures lookup.Responded? && lookup.response.status == 200 && lookup.response.contentType == Some(JsonContentType)
            ==> r == (match lookup.response.body
                      case NullBody => Failure(NullBodyRead)
                      case Payload(d) => Success(d))
  {
    match lookup
    case TokenUnavailable => Failure(TokenFailed)
    case TransportFailed => Failure(LookupTransportFailed)
    case Responded(response) =>
      if response.status < 200 then Failure(StatusRejected(response.status))
      else if response.status != 200 then Success(None)
      else if response.contentType != Some(JsonContentType) then Success(None)
      else match response.body
        case NullBody => Failure(NullBodyRead)
        case Payload(d) => Success(d)
  }

  /**
   * `activeToday` once the start date is known. A start date can only
   * suppress the questionnaire's own flag, never raise it; a date that
   * `Date.parse` cannot read suppresses too, since `NaN <= now` is false.
   */
  function ActiveToday(q: Questionnaire, startDate: Option<string>, services: Services): (active: bool)
    ensures active ==> q.activeToday
    ensures startDate.None? ==> active == q.activeToday
    ensures startDate.Some? ==>
              (active <==> q.activeToday && services.parseDate(startDate.value).Some?
                           && services.parseDate(startDate.value).value <= services.nowMs)
  {
    match startDate
    case None => q.activeToday
    case Some(s) =>
      match services.parseDate(s)
      case Some(t) => if t <= services.nowMs then q.activeToday else false
      case None => false
  }

  /** `getActiveTodayQuestionnaire`: the questionnaire itself when active, None (`null`) otherwise. */
  function GetActiveTodayQuestionnaire(q: Questionnaire, services: Services): (r: Result<Option<Questionnaire>, Failure>)
    ensures r.Failure? <==> GetToStartDate(services.lookup(q)).Failure?
    ensures r.Success? ==> r.value == Some(q) || r.value == None
    ensures r == Success(Some(q)) ==> q.activeToday
  {
    match GetToStartDate(services.lookup(q))
    case Failure(e) => Failure(e)
    case Success(startDate) => Success(if ActiveToday(q, startDate, services) then Some(q) else None)
  }

  /** Whether the route keeps `q`. */
  predicate Survives(q: Questionnaire, services: Services)
  {
    GetActiveTodayQuestionnaire(q, services) == Success(Some(q))
  }

  /** Whether every lookup in `qs` completes without an exception. */
  predicate AllLookupsSettle(qs: seq<Questionnaire>, services: Services)
  {
    forall i :: 0 <= i < |qs| ==> GetActiveTodayQuestionnaire(qs[i], services).Success?
  }

  /**
   * `Promise.all(qs.map(getActiveTodayQuestionnaire))`, in input order: every
   * result, position by position, or the first failure.
   */
  function AwaitAll(qs: seq<Questionnaire>, services: Services): (r: Result<seq<Option<Questionnaire>>, Failure>)
    ensures r.Success? <==> AllLookupsSettle(qs, services)
    ensures r.Success? ==> |r.value| == |qs|
    ensures r.Success? ==>
              forall i :: 0 <= i < |qs| ==> GetActiveTodayQuestionnaire(qs[i], services) == Success(r.value[i])
    ensures r.Failure? ==> exists i :: 0 <= i < |qs| && GetActiveTodayQuestionnaire(qs[i], services) == Failure(r.error)
    decreases |qs|
  {
    if qs == [] then Success([])
    else
      match GetActiveTodayQuestionnaire(qs[0], services)
      case Failure(e) => Failure(e)
      case Success(first) =>
        match AwaitAll(qs[1..], services)
        case Failure(e) =>
          assert forall i :: 0 <= i < |qs[1..]| ==> qs[1..][i] == qs[i + 1];
          Failure(e)
        case Success(rest) =>
          assert forall i :: 1 <= i < |qs| ==> qs[i] == qs[1..][i - 1];
          Success([first] + rest)
  }

  /** `.filter((result) => result !== null)`: the present values, in order. */
  function DropNulls(results: seq<Option<Questionnaire>>): (r: seq<Questionnaire>)
    ensures |r| <= |results|
    ensures forall q :: multiset(r)[q] == multiset(results)[Some(q)]
  {
    if results == [] then []
    else
      assert results == [results[0]] + results[1..];
      match results[0]
      case Some(q) => [q] + DropNulls(results[1..])
      case None => DropNulls(results[1..])
  }

  /** The questionnaires that survive, in input order: the reference filter. */
  function Survivors(qs: seq<Questionnaire>, services: Services): (r: seq<Questionnaire>)
    ensures forall i :: 0 <= i < |r| ==> Survives(r[i], services)
  {
    if qs == [] then []
    else if Survives(qs[0], services) then [qs[0]] + Survivors(qs[1..], services)
    else Survivors(qs[1..], services)
  }

  /** `a` can be obtained from `b` by deleting elements. */
  predicate IsSubsequence<T(==)>(a: seq<T>, b: seq<T>)
    decreases |b|
  {
    a == [] || (b != [] && ((a[0] == b[0] && IsSubsequence(a[1..], b[1..])) || IsSubsequence(a, b[1..])))
  }

  /**
   * The survivors are exactly the questionnaires whose decision is true,
   * in input order: a subsequence of the input that keeps every occurrence
   * of a surviving questionnaire and none of any other.
   */
  lemma {:induction false} SurvivorsExact(qs: seq<Questionnaire>, services: Services)
    ensures IsSubsequence(Survivors(qs, services), qs)
    ensures forall q :: multiset(Survivors(qs, services))[q]
                        == if Survives(q, services) then multiset(qs)[q] else 0
  {
    if qs != [] {
      SurvivorsExact(qs[1..], services);
      assert qs == [qs[0]] + qs[1..];
      var rest := Survivors(qs[1..], services);
      if Survives(qs[0], services) {
        assert ([qs[0]] + rest)[1..] == rest;
      } else if rest != [] {
        assert IsSubsequence(rest, qs[1..]);
      }
    }
  }

  /** The two-stage pipeline (settle every lookup, then drop the nulls) is the reference filter. */
  lemma {:induction false} PipelineIsFilter(qs: seq<Questionnaire>, services: Services)
    requires AwaitAll(qs, services).Success?
    ensures DropNulls(AwaitAll(qs, services).value) == Survivors(qs, services)
  {
    if qs != [] {
      var results := AwaitAll(qs, services).value;
      PipelineIsFilter(qs[1..], services);
      assert results == [results[0]] + AwaitAll(qs[1..], services).value;
      assert results[1..] == AwaitAll(qs[1..], services).value;
    }
  }

  /**
   * `getActiveTodayQuestionnaires`: fails when any lookup fails (there is no
   * per-item catch); otherwise the survivors in input order.
   */
  function GetActiveTodayQuestionnaires(qs: seq<Questionnaire>, services: Services): (r: Result<seq<Questionnaire>, Failure>)
    ensures r.Success? <==> AllLookupsSettle(qs, services)
    ensures r.Failure? ==> exists i :: 0 <= i < |qs| && GetActiveTodayQuestionnaire(qs[i], services) == Failure(r.error)
    ensures r.Success? ==> r.value == Survivors(qs, services)
  {
    match AwaitAll(qs, services)
    case Failure(e) => Failure(e)
    case Success(results) =>
      PipelineIsFilter(qs, services);
      Success(DropNulls(results))
  }

  /**
   * `addExtraInstrumentFields`: the survey code is the first three characters
   * of the name (fewer when the name is shorter), the link opens the
   * questionnaire in the large interviewer layout, and the field period is
   * rendered from the name; the listed fields are kept.
   */
  function AddExtraInstrumentFields(vmExternalWebUrl: string, q: Questionnaire): (r: Instrument)
    ensures r.name == q.name && r.installDate == q.installDate
    ensures r.serverParkName == q.serverParkName && r.activeToday == q.activeToday
    ensures |r.surveyTLA| == Min(3, |q.name|) && r.surveyTLA == q.name[..|r.surveyTLA|]
    ensures r.link == "https://" + vmExternalWebUrl + "/" + q.name + LayoutSuffix
    ensures r.fieldPeriod == FieldPeriod.FieldPeriodToText(q.name)
  {
    Instrument(q.name, q.installDate, q.serverParkName, q.activeToday,
               Substr(q.name, 0, 3),
               "https://" + vmExternalWebUrl + "/" + q.name + LayoutSuffix,
               FieldPeriod.FieldPeriodToText(q.name))
  }

  /** The questionnaire an instrument was built from. */
  function Base(x: Instrument): Questionnaire
  {
    Questionnaire(x.name, x.installDate, x.serverParkName, x.activeToday)
  }

  /** Enrichment only adds fields: the questionnaire can be read back, and the survey code is a prefix of its name. */
  lemma EnrichmentRoundTrip(vmExternalWebUrl: string, q: Questionnaire)
    ensures Base(AddExtraInstrumentFields(vmExternalWebUrl, q)) == q
    ensures |q.name| >= 3 ==> AddExtraInstrumentFields(vmExternalWebUrl, q).surveyTLA == q.name[..3]
  {
  }

  /** `activeQuestionnaires.map(addExtraInstrumentFields)`. */
  function EnrichAll(vmExternalWebUrl: string, qs: seq<Questionnaire>): (r: seq<Instrument>)
    ensures |r| == |qs|
    ensures forall i :: 0 <= i < |qs| ==> r[i] == AddExtraInstrumentFields(vmExternalWebUrl, qs[i])
  {
    if qs == [] then [] else [AddExtraInstrumentFields(vmExternalWebUrl, qs[0])] + EnrichAll(vmExternalWebUrl, qs[1..])
  }

  // ---------------------------------------------------------------------
  // Grouping. lodash `groupBy` builds a plain object keyed by `surveyTLA`
  // and `_.map` walks that object's own keys in JavaScript property order:
  // keys that are array indices first, in ascending numeric order, then
  // every other key in the order it was first inserted.
  // ---------------------------------------------------------------------

  /** A property key that JavaScript orders as an array index: a canonical decimal below 2^32 - 1. */
  predicate IsArrayIndex(k: string)
  {
    k != [] && AllDigits(k) && (k[0] != '0' || |k| == 1) && DecimalValue(k) < 0xFFFF_FFFF
  }

  /** The position of the group with key `k`, or |gs| when there is none. */
  function FindGroup(gs: seq<Survey>, k: string): (i: nat)
    ensures i <= |gs|
    ensures i < |gs| ==> gs[i].survey == k
    ensures i == |gs| ==> forall j :: 0 <= j < |gs| ==> gs[j].survey != k
  {
    if gs == [] then 0
    else if gs[0].survey == k then 0
    else 1 + FindGroup(gs[1..], k)
  }

  /** Where a new array-index key goes: after the index keys below it. */
  function IndexSlot(gs: seq<Survey>, k: string): (p: nat)
    requires IsArrayIndex(k)
    ensures p <= |gs|
    ensures forall i :: 0 <= i < p ==> IsArrayIndex(gs[i].survey) && DecimalValue(gs[i].survey) < DecimalValue(k)
    ensures p < |gs| ==> !IsArrayIndex(gs[p].survey) || DecimalValue(gs[p].survey) >= DecimalValue(k)
  {
    if gs == [] || !IsArrayIndex(gs[0].survey) || DecimalValue(gs[0].survey) >= DecimalValue(k) then 0
    else 1 + IndexSlot(gs[1..], k)
  }

  /** One step of `groupBy`: append to the existing group, or create the key where the object would place it. */
  function AddToGroups(gs: seq<Survey>, x: Instrument): seq<Survey>
  {
    var k := x.surveyTLA;
    var i := FindGroup(gs, k);
    if i < |gs| then gs[i := Survey(k, gs[i].questionnaires + [x])]
    else if IsArrayIndex(k) then
      var p := IndexSlot(gs, k);
      gs[..p] + [Survey(k, [x])] + gs[p..]
    else gs + [Survey(k, [x])]
  }

  /** `groupBySurvey`: the instruments folded into groups, in object key order. */
  function GroupBySurvey(xs: seq<Instrument>): seq<Survey>
    decreases |xs|
  {
    if xs == [] then [] else AddToGroups(GroupBySurvey(xs[..|xs| - 1]), xs[|xs| - 1])
  }

  /** The survey codes occurring in `xs`. */
  function Codes(xs: seq<Instrument>): (ks: set<string>)
    ensures forall j :: 0 <= j < |xs| ==> xs[j].surveyTLA in ks
    decreases |xs|
  {
    if xs == [] then {} else Codes(xs[..|xs| - 1]) + {xs[|xs| - 1].surveyTLA}
  }

  /** The instruments of `xs` whose survey code is `k`, in order. */
  function Members(xs: seq<Instrument>, k: string): (m: seq<Instrument>)
    ensures forall j :: 0 <= j < |m| ==> m[j].surveyTLA == k
    decreases |xs|
  {
    if xs == [] then []
    else Members(xs[..|xs| - 1], k) + (if xs[|xs| - 1].surveyTLA == k then [xs[|xs| - 1]] else [])
  }

  /** The position where survey code `k` first occurs in `xs`. */
  function FirstSeen(xs: seq<Instrument>, k: string): (i: nat)
    requires k in Codes(xs)
    ensures i < |xs| && xs[i].surveyTLA == k
    ensures forall j :: 0 <= j < i ==> xs[j].surveyTLA != k
    decreases |xs|
  {
    if k in Codes(xs[..|xs| - 1]) then FirstSeen(xs[..|xs| - 1], k) else |xs| - 1
  }

  /** The survey keys of the groups. */
  function KeysOf(gs: seq<Survey>): (ks: set<string>)
    ensures forall i :: 0 <= i < |gs| ==> gs[i].survey in ks
  {
    if gs == [] then {} else {gs[0].survey} + KeysOf(gs[1..])
  }

  /** All the instruments of the groups, group after group. */
  function Flatten(gs: seq<Survey>): seq<Instrument>
  {
    if gs == [] then [] else gs[0].questionnaires + Flatten(gs[1..])
  }

  /** Groups with the same keys position by position have the same key set. */
  lemma {:induction false} SameKeysSameKeySet(gs: seq<Survey>, ns: seq<Survey>)
    requires |ns| == |gs| && forall j :: 0 <= j < |gs| ==> ns[j].survey == gs[j].survey
    ensures KeysOf(ns) == KeysOf(gs)
  {
    if gs != [] {
      SameKeysSameKeySet(gs[1..], ns[1..]);
    }
  }

  /** A code that no group carries is not a key. */
  lemma {:induction false} NotAKey(gs: seq<Survey>, k: string)
    requires forall j :: 0 <= j < |gs| ==> gs[j].survey != k
    ensures k !in KeysOf(gs)
  {
    if gs != [] {
      NotAKey(gs[1..], k);
    }
  }

  predicate DistinctKeys(gs: seq<Survey>)
  {
    forall i, j :: 0 <= i < j < |gs| ==> gs[i].survey != gs[j].survey
  }

  /** Each group holds exactly the instruments with its code, in input order. */
  predicate HoldsMembers(gs: seq<Survey>, xs: seq<Instrument>)
  {
    forall i :: 0 <= i < |gs| ==> gs[i].questionnaires == Members(xs, gs[i].survey)
  }

  /** Array-index keys come before all other keys, in ascending numeric order. */
  predicate IndexKeysFirst(gs: seq<Survey>)
  {
    forall i, j :: 0 <= i < j < |gs| && IsArrayIndex(gs[j].survey) ==>
      IsArrayIndex(gs[i].survey) && DecimalValue(gs[i].survey) < DecimalValue(gs[j].survey)
  }

  /** Keys that are not array indices appear in the order their codes first occur in `xs`. */
  predicate OtherKeysFirstSeen(gs: seq<Survey>, xs: seq<Instrument>)
    requires KeysOf(gs) == Codes(xs)
  {
    forall i, j :: 0 <= i < j < |gs| && !IsArrayIndex(gs[i].survey) && !IsArrayIndex(gs[j].survey) ==>
      FirstSeen(xs, gs[i].survey) < FirstSeen(xs, gs[j].survey)
  }

  /** What `groupBySurvey` promises about its result for the instruments `xs`. */
  predicate GroupedBySurvey(gs: seq<Survey>, xs: seq<Instrument>)
  {
    && KeysOf(gs) == Codes(xs)
    && DistinctKeys(gs)
    && HoldsMembers(gs, xs)
    && IndexKeysFirst(gs)
    && OtherKeysFirstSeen(gs, xs)
    && multiset(Flatten(gs)) == multiset(xs)
  }

  // Two distinct array-index keys have distinct numeric values.

  function Pow10(n: nat): (p: nat)
    ensures p >= 1
  {
    if n == 0 then 1 else 10 * Pow10(n - 1)
  }

  lemma {:induction false} Pow10Monotone(m: nat, n: nat)
    requires m <= n
    ensures Pow10(m) <= Pow10(n)
    decreases n
  {
    if m < n {
      Pow10Monotone(m, n - 1);
    }
  }

  lemma {:induction false} DecimalBelowPow10(s: string)
    requires AllDigits(s)
    ensures DecimalValue(s) < Pow10(|s|)
    decreases |s|
  {
    if s != [] {
      DecimalBelowPow10(s[..|s| - 1]);
    }
  }

  lemma {:induction false} DecimalAtLeastPow10(s: string)
    requires AllDigits(s) && s != [] && s[0] != '0'
    ensures DecimalValue(s) >= Pow10(|s| - 1)
    decreases |s|
  {
    if |s| > 1 {
      DecimalAtLeastPow10(s[..|s| - 1]);
    }
  }

  lemma {:induction false} SameLengthDecimalInjective(a: string, b: string)
    requires AllDigits(a) && AllDigits(b) && |a| == |b|
    requires DecimalValue(a) == DecimalValue(b)
    ensures a == b
    decreases |a|
  {
    if a != [] {
      var n := |a| - 1;
      assert DigitValue(a[n]) == DigitValue(b[n]);
      SameLengthDecimalInjective(a[..n], b[..n]);
      assert a == a[..n] + [a[n]] && b == b[..n] + [b[n]];
    }
  }

  lemma ArrayIndexKeysInjective(a: string, b: string)
    requires IsArrayIndex(a) && IsArrayIndex(b) && DecimalValue(a) == DecimalValue(b)
    ensures a == b
  {
    if |a| < |b| {
      DecimalBelowPow10(a);
      DecimalAtLeastPow10(b);
      Pow10Monotone(|a|, |b| - 1);
    } else if |b| < |a| {
      DecimalBelowPow10(b);
      DecimalAtLeastPow10(a);
      Pow10Monotone(|b|, |a| - 1);
    } else {
      SameLengthDecimalInjective(a, b);
    }
  }

  // Sequence facts behind the grouping proof.

  lemma {:induction false} FlattenAppend(a: seq<Survey>, b: seq<Survey>)
    ensures Flatten(a + b) == Flatten(a) + Flatten(b)
    decreases |a|
  {
    if a == [] {
      assert a + b == b;
    } else {
      assert (a + b)[1..] == a[1..] + b;
      FlattenAppend(a[1..], b);
    }
  }

  lemma {:induction false} KeysOfAppend(a: seq<Survey>, b: seq<Survey>)
    ensures KeysOf(a + b) == KeysOf(a) + KeysOf(b)
    decreases |a|
  {
    if a == [] {
      assert a + b == b;
    } else {
      assert (a + b)[1..] == a[1..] + b;
      KeysOfAppend(a[1..], b);
    }
  }

  /** Appending an instrument adds its code. */
  lemma CodesExtend(ys: seq<Instrument>, x: Instrument)
    ensures Codes(ys + [x]) == Codes(ys) + {x.surveyTLA}
  {
    assert (ys + [x])[..|ys|] == ys;
  }

  /** Appending an instrument extends the members of its own code only. */
  lemma MembersExtend(ys: seq<Instrument>, x: Instrument, c: string)
    ensures Members(ys + [x], c) == Members(ys, c) + (if c == x.surveyTLA then [x] else [])
  {
    assert (ys + [x])[..|ys|] == ys;
  }

  /** Appending an instrument moves no first occurrence, and a new code first occurs at the end. */
  lemma FirstSeenExtend(ys: seq<Instrument>, x: Instrument, c: string)
    requires c in Codes(ys) || c == x.surveyTLA
    ensures c in Codes(ys + [x])
    ensures c in Codes(ys) ==> FirstSeen(ys + [x], c) == FirstSeen(ys, c)
    ensures c !in Codes(ys) ==> FirstSeen(ys + [x], c) == |ys|
  {
    CodesExtend(ys, x);
    assert (ys + [x])[..|ys|] == ys;
  }

  lemma {:induction false} MembersComeFromInput(xs: seq<Instrument>, k: string, x: Instrument)
    requires x in Members(xs, k)
    ensures x in xs
    decreases |xs|
  {
    var ys := xs[..|xs| - 1];
    if x in Members(ys, k) {
      MembersComeFromInput(ys, k, x);
      assert forall y :: y in ys ==> y in xs;
    }
  }

  lemma {:induction false} NoMembersWithoutCode(xs: seq<Instrument>, k: string)
    requires k !in Codes(xs)
    ensures Members(xs, k) == []
    decreases |xs|
  {
    if xs != [] {
      NoMembersWithoutCode(xs[..|xs| - 1], k);
    }
  }

  /** Extending one group by `x` keeps the keys and adds `x` to the contents. */
  lemma {:induction false} ReplaceGroupFacts(gs: seq<Survey>, i: nat, g: Survey, x: Instrument)
    requires i < |gs| && g.survey == gs[i].survey && g.questionnaires == gs[i].questionnaires + [x]
    ensures KeysOf(gs[i := g]) == KeysOf(gs)
    ensures multiset(Flatten(gs[i := g])) == multiset(Flatten(gs)) + multiset{x}
  {
    var ns := gs[i := g];
    assert gs == gs[..i] + [gs[i]] + gs[i + 1..];
    assert ns == gs[..i] + [g] + gs[i + 1..];
    KeysOfAppend(gs[..i] + [gs[i]], gs[i + 1..]);
    KeysOfAppend(gs[..i], [gs[i]]);
    KeysOfAppend(gs[..i] + [g], gs[i + 1..]);
    KeysOfAppend(gs[..i], [g]);
    assert [g][1..] == [] && [gs[i]][1..] == [];
    FlattenAppend(gs[..i] + [gs[i]], gs[i + 1..]);
    FlattenAppend(gs[..i], [gs[i]]);
    FlattenAppend(gs[..i] + [g], gs[i + 1..]);
    FlattenAppend(gs[..i], [g]);
  }

  /** Inserting a group at position `p` adds its key and its contents. */
  lemma {:induction false} InsertGroupFacts(gs: seq<Survey>, p: nat, g: Survey)
    requires p <= |gs|
    ensures KeysOf(gs[..p] + [g] + gs[p..]) == KeysOf(gs) + {g.survey}
    ensures multiset(Flatten(gs[..p] + [g] + gs[p..])) == multiset(Flatten(gs)) + multiset(g.questionnaires)
  {
    assert gs == gs[..p] + gs[p..];
    KeysOfAppend(gs[..p], gs[p..]);
    KeysOfAppend(gs[..p] + [g], gs[p..]);
    KeysOfAppend(gs[..p], [g]);
    assert [g][1..] == [];
    FlattenAppend(gs[..p], gs[p..]);
    FlattenAppend(gs[..p] + [g], gs[p..]);
    FlattenAppend(gs[..p], [g]);
  }

  /** Replacing a group's contents keeps every key where it was, so key order is kept. */
  lemma SameKeysKeepOrder(gs: seq<Survey>, ns: seq<Survey>, ys: seq<Instrument>, x: Instrument)
    requires |ns| == |gs| && forall j :: 0 <= j < |gs| ==> ns[j].survey == gs[j].survey
    requires KeysOf(gs) == Codes(ys) && x.surveyTLA in Codes(ys)
    requires DistinctKeys(gs) && IndexKeysFirst(gs) && OtherKeysFirstSeen(gs, ys)
    ensures KeysOf(ns) == Codes(ys + [x])
    ensures DistinctKeys(ns) && IndexKeysFirst(ns) && OtherKeysFirstSeen(ns, ys + [x])
  {
    var xs := ys + [x];
    CodesExtend(ys, x);
    SameKeysSameKeySet(gs, ns);
    forall a, b | 0 <= a < b < |ns| && !IsArrayIndex(ns[a].survey) && !IsArrayIndex(ns[b].survey)
      ensures FirstSeen(xs, ns[a].survey) < FirstSeen(xs, ns[b].survey)
    {
      FirstSeenExtend(ys, x, gs[a].survey);
      FirstSeenExtend(ys, x, gs[b].survey);
    }
  }

  /** Appending to the group that already has the code keeps the grouping invariant. */
  lemma JoinExistingGroup(gs: seq<Survey>, ys: seq<Instrument>, x: Instrument, i: nat)
    requires GroupedBySurvey(gs, ys)
    requires i < |gs| && gs[i].survey == x.surveyTLA
    ensures GroupedBySurvey(gs[i := Survey(x.surveyTLA, gs[i].questionnaires + [x])], ys + [x])
  {
    var xs := ys + [x];
    var g := Survey(x.surveyTLA, gs[i].questionnaires + [x]);
    var ns := gs[i := g];
    ReplaceGroupFacts(gs, i, g, x);
    assert x.surveyTLA in KeysOf(gs);
    SameKeysKeepOrder(gs, ns, ys, x);
    JoinMembers(gs, ys, x, i);
  }

  lemma JoinMembers(gs: seq<Survey>, ys: seq<Instrument>, x: Instrument, i: nat)
    requires HoldsMembers(gs, ys) && DistinctKeys(gs)
    requires i < |gs| && gs[i].survey == x.surveyTLA
    ensures HoldsMembers(gs[i := Survey(x.surveyTLA, gs[i].questionnaires + [x])], ys + [x])
  {
    var ns := gs[i := Survey(x.surveyTLA, gs[i].questionnaires + [x])];
    forall j | 0 <= j < |ns|
      ensures ns[j].questionnaires == Members(ys + [x], ns[j].survey)
    {
      MembersExtend(ys, x, ns[j].survey);
      if j != i {
        assert ns[j] == gs[j];
        if gs[j].survey == x.surveyTLA {
          assert false;
        }
      }
    }
  }

  /** Where the groups sit after a new group is inserted at `p`. */
  lemma InsertShifts(gs: seq<Survey>, p: nat, g: Survey)
    requires p <= |gs|
    ensures |gs[..p] + [g] + gs[p..]| == |gs| + 1
    ensures (gs[..p] + [g] + gs[p..])[p] == g
    ensures forall j :: 0 <= j < p ==> (gs[..p] + [g] + gs[p..])[j] == gs[j]
    ensures forall j :: p < j <= |gs| ==> (gs[..p] + [g] + gs[p..])[j] == gs[j - 1]
  {
  }

  /** A new group with a fresh key keeps the keys distinct. */
  lemma NewGroupDistinct(gs: seq<Survey>, p: nat, g: Survey)
    requires DistinctKeys(gs) && p <= |gs|
    requires forall j :: 0 <= j < |gs| ==> gs[j].survey != g.survey
    ensures DistinctKeys(gs[..p] + [g] + gs[p..])
  {
    var ns := gs[..p] + [g] + gs[p..];
    InsertShifts(gs, p, g);
    forall i, j | 0 <= i < j < |ns|
      ensures ns[i].survey != ns[j].survey
    {
      if j < p {
      } else if j == p {
      } else if i == p {
        assert ns[j] == gs[j - 1];
      } else if i < p {
        assert ns[i] == gs[i] && ns[j] == gs[j - 1];
      } else {
        assert ns[i] == gs[i - 1] && ns[j] == gs[j - 1];
      }
    }
  }

  /** A new group for a code not seen before holds exactly the one instrument with that code. */
  lemma NewGroupMembers(gs: seq<Survey>, ys: seq<Instrument>, x: Instrument, p: nat)
    requires HoldsMembers(gs, ys) && p <= |gs|
    requires forall j :: 0 <= j < |gs| ==> gs[j].survey != x.surveyTLA
    requires x.surveyTLA !in Codes(ys)
    ensures HoldsMembers(gs[..p] + [Survey(x.surveyTLA, [x])] + gs[p..], ys + [x])
  {
    var g := Survey(x.surveyTLA, [x]);
    var ns := gs[..p] + [g] + gs[p..];
    var xs := ys + [x];
    InsertShifts(gs, p, g);
    forall j | 0 <= j < |ns|
      ensures ns[j].questionnaires == Members(xs, ns[j].survey)
    {
      MembersExtend(ys, x, ns[j].survey);
      if j == p {
        NoMembersWithoutCode(ys, x.surveyTLA);
      } else {
        var k := if j < p then j else j - 1;
        assert ns[j] == gs[k];
      }
    }
  }

  /** A new last group whose key is not an array index keeps both key orders. */
  lemma AppendKeepsOrder(gs: seq<Survey>, ys: seq<Instrument>, x: Instrument)
    requires KeysOf(gs) == Codes(ys) && x.surveyTLA !in Codes(ys) && !IsArrayIndex(x.surveyTLA)
    requires IndexKeysFirst(gs) && OtherKeysFirstSeen(gs, ys)
    ensures KeysOf(gs + [Survey(x.surveyTLA, [x])]) == Codes(ys + [x])
    ensures IndexKeysFirst(gs + [Survey(x.surveyTLA, [x])])
    ensures OtherKeysFirstSeen(gs + [Survey(x.surveyTLA, [x])], ys + [x])
  {
    var xs := ys + [x];
    var g := Survey(x.surveyTLA, [x]);
    var ns := gs + [g];
    CodesExtend(ys, x);
    KeysOfAppend(gs, [g]);
    assert KeysOf([g]) == {g.survey} by {
      assert [g][1..] == [];
    }
    assert forall j :: 0 <= j < |gs| ==> ns[j] == gs[j];
    AppendKeepsFirstSeen(gs, ys, x);
  }

  lemma AppendKeepsFirstSeen(gs: seq<Survey>, ys: seq<Instrument>, x: Instrument)
    requires KeysOf(gs) == Codes(ys) && x.surveyTLA !in Codes(ys)
    requires KeysOf(gs + [Survey(x.surveyTLA, [x])]) == Codes(ys + [x])
    requires OtherKeysFirstSeen(gs, ys)
    ensures OtherKeysFirstSeen(gs + [Survey(x.surveyTLA, [x])], ys + [x])
  {
    var xs := ys + [x];
    var ns := gs + [Survey(x.surveyTLA, [x])];
    forall a, b | 0 <= a < b < |ns| && !IsArrayIndex(ns[a].survey) && !IsArrayIndex(ns[b].survey)
      ensures FirstSeen(xs, ns[a].survey) < FirstSeen(xs, ns[b].survey)
    {
      assert ns[a] == gs[a];
      FirstSeenExtend(ys, x, gs[a].survey);
      if b < |gs| {
        assert ns[b] == gs[b];
        FirstSeenExtend(ys, x, gs[b].survey);
      } else {
        FirstSeenExtend(ys, x, x.surveyTLA);
      }
    }
  }

  /** A code seen for the first time that is not an array index becomes the last group. */
  lemma AppendNewGroup(gs: seq<Survey>, ys: seq<Instrument>, x: Instrument)
    requires GroupedBySurvey(gs, ys)
    requires forall j :: 0 <= j < |gs| ==> gs[j].survey != x.surveyTLA
    requires !IsArrayIndex(x.surveyTLA)
    ensures GroupedBySurvey(gs + [Survey(x.surveyTLA, [x])], ys + [x])
  {
    var g := Survey(x.surveyTLA, [x]);
    assert gs[..|gs|] + [g] + gs[|gs|..] == gs + [g];
    InsertGroupFacts(gs, |gs|, g);
    NotAKey(gs, x.surveyTLA);
    NewGroupDistinct(gs, |gs|, g);
    NewGroupMembers(gs, ys, x, |gs|);
    AppendKeepsOrder(gs, ys, x);
  }

  /** A new index key is below every index key at or after its slot. */
  lemma IndexSlotBelowLater(gs: seq<Survey>, k: string, m: nat)
    requires IndexKeysFirst(gs) && IsArrayIndex(k)
    requires forall j :: 0 <= j < |gs| ==> gs[j].survey != k
    requires IndexSlot(gs, k) <= m < |gs| && IsArrayIndex(gs[m].survey)
    ensures DecimalValue(k) < DecimalValue(gs[m].survey)
  {
    var p := IndexSlot(gs, k);
    var at := gs[p].survey;
    assert IsArrayIndex(at) && (p == m || DecimalValue(at) < DecimalValue(gs[m].survey));
    assert DecimalValue(at) >= DecimalValue(k);
    if DecimalValue(at) == DecimalValue(k) {
      ArrayIndexKeysInjective(at, k);
      assert false;
    }
  }

  /** One pair of positions after a new index key is inserted at its slot. */
  lemma InsertedPairOrdered(gs: seq<Survey>, g: Survey, i: nat, j: nat)
    requires IndexKeysFirst(gs) && IsArrayIndex(g.survey)
    requires forall m :: 0 <= m < |gs| ==> gs[m].survey != g.survey
    requires var p := IndexSlot(gs, g.survey);
             i < j < |gs| + 1 && IsArrayIndex((gs[..p] + [g] + gs[p..])[j].survey)
    ensures var ns := gs[..IndexSlot(gs, g.survey)] + [g] + gs[IndexSlot(gs, g.survey)..];
            IsArrayIndex(ns[i].survey) && DecimalValue(ns[i].survey) < DecimalValue(ns[j].survey)
  {
    var p := IndexSlot(gs, g.survey);
    InsertShifts(gs, p, g);
    if p < i {
      assert IsArrayIndex(gs[i - 1].survey) && DecimalValue(gs[i - 1].survey) < DecimalValue(gs[j - 1].survey);
    } else if p == i {
      IndexSlotBelowLater(gs, g.survey, j - 1);
    } else if j < p {
      assert IsArrayIndex(gs[i].survey) && DecimalValue(gs[i].survey) < DecimalValue(gs[j].survey);
    } else if j == p {
    } else {
      assert IsArrayIndex(gs[i].survey) && DecimalValue(gs[i].survey) < DecimalValue(gs[j - 1].survey);
    }
  }

  /** Inserting a new index key at its slot keeps index keys first and ascending. */
  lemma IndexSlotKeepsOrder(gs: seq<Survey>, g: Survey)
    requires IndexKeysFirst(gs) && IsArrayIndex(g.survey)
    requires forall j :: 0 <= j < |gs| ==> gs[j].survey != g.survey
    ensures var p := IndexSlot(gs, g.survey);
            IndexKeysFirst(gs[..p] + [g] + gs[p..])
  {
    var p := IndexSlot(gs, g.survey);
    var ns := gs[..p] + [g] + gs[p..];
    forall i, j | 0 <= i < j < |ns| && IsArrayIndex(ns[j].survey)
      ensures IsArrayIndex(ns[i].survey) && DecimalValue(ns[i].survey) < DecimalValue(ns[j].survey)
    {
      InsertedPairOrdered(gs, g, i, j);
    }
  }

  /** Inserting an index key leaves the other keys in first-seen order. */
  lemma IndexSlotKeepsFirstSeen(gs: seq<Survey>, ys: seq<Instrument>, x: Instrument)
    requires KeysOf(gs) == Codes(ys) && OtherKeysFirstSeen(gs, ys)
    requires IsArrayIndex(x.surveyTLA) && x.surveyTLA !in Codes(ys)
    ensures var ns := gs[..IndexSlot(gs, x.surveyTLA)] + [Survey(x.surveyTLA, [x])] + gs[IndexSlot(gs, x.surveyTLA)..];
            KeysOf(ns) == Codes(ys + [x]) && OtherKeysFirstSeen(ns, ys + [x])
  {
    var g := Survey(x.surveyTLA, [x]);
    var p := IndexSlot(gs, x.surveyTLA);
    var ns := gs[..p] + [g] + gs[p..];
    var xs := ys + [x];
    CodesExtend(ys, x);
    InsertGroupFacts(gs, p, g);
    InsertShifts(gs, p, g);
    assert KeysOf(ns) == Codes(xs);
    forall i, j | 0 <= i < j < |ns| && !IsArrayIndex(ns[i].survey) && !IsArrayIndex(ns[j].survey)
      ensures FirstSeen(xs, ns[i].survey) < FirstSeen(xs, ns[j].survey)
    {
      assert p < i;
      assert ns[i] == gs[i - 1] && ns[j] == gs[j - 1];
      assert gs[i - 1].survey in KeysOf(gs) && gs[j - 1].survey in KeysOf(gs);
      FirstSeenExtend(ys, x, gs[i - 1].survey);
      FirstSeenExtend(ys, x, gs[j - 1].survey);
    }
  }

  /** A code seen for the first time that is an array index is inserted among the index keys by value. */
  lemma InsertNewIndexGroup(gs: seq<Survey>, ys: seq<Instrument>, x: Instrument)
    requires GroupedBySurvey(gs, ys)
    requires forall j :: 0 <= j < |gs| ==> gs[j].survey != x.surveyTLA
    requires IsArrayIndex(x.surveyTLA)
    ensures var p := IndexSlot(gs, x.surveyTLA);
            GroupedBySurvey(gs[..p] + [Survey(x.surveyTLA, [x])] + gs[p..], ys + [x])
  {
    var g := Survey(x.surveyTLA, [x]);
    var p := IndexSlot(gs, x.surveyTLA);
    NotAKey(gs, x.surveyTLA);
    InsertGroupFacts(gs, p, g);
    NewGroupDistinct(gs, p, g);
    NewGroupMembers(gs, ys, x, p);
    IndexSlotKeepsOrder(gs, g);
    IndexSlotKeepsFirstSeen(gs, ys, x);
  }

  lemma AddToGroupsPreserves(gs: seq<Survey>, ys: seq<Instrument>, x: Instrument)
    requires GroupedBySurvey(gs, ys)
    ensures GroupedBySurvey(AddToGroups(gs, x), ys + [x])
  {
    var i := FindGroup(gs, x.surveyTLA);
    if i < |gs| {
      JoinExistingGroup(gs, ys, x, i);
    } else if IsArrayIndex(x.surveyTLA) {
      InsertNewIndexGroup(gs, ys, x);
    } else {
      AppendNewGroup(gs, ys, x);
    }
  }

  /**
   * `groupBySurvey` meets its description: one group per survey code
   * present, each holding exactly that code's instruments in input order,
   * groups in JavaScript key order, and every instrument in exactly one group.
   */
  lemma {:induction false} GroupBySurveyCorrect(xs: seq<Instrument>)
    ensures GroupedBySurvey(GroupBySurvey(xs), xs)
    decreases |xs|
  {
    if xs != [] {
      var ys := xs[..|xs| - 1];
      GroupBySurveyCorrect(ys);
      assert xs == ys + [xs[|xs| - 1]];
      AddToGroupsPreserves(GroupBySurvey(ys), ys, xs[|xs| - 1]);
    }
  }

  /** The first instrument opens the first group. */
  lemma FirstGroup(x: Instrument)
    ensures GroupBySurvey([x]) == [Survey(x.surveyTLA, [x])]
  {
    assert [x][..0] == [];
    var e: seq<Survey> := [];
    assert e[..0] + [Survey(x.surveyTLA, [x])] + e[0..] == [Survey(x.surveyTLA, [x])];
  }

  /** One code throughout: a single group holding every instrument in order. */
  lemma {:induction false} OneSurveyOneGroup(xs: seq<Instrument>, k: string)
    requires xs != [] && forall j :: 0 <= j < |xs| ==> xs[j].surveyTLA == k
    ensures GroupBySurvey(xs) == [Survey(k, xs)]
    decreases |xs|
  {
    var ys := xs[..|xs| - 1];
    if ys == [] {
      assert xs == [xs[0]];
      FirstGroup(xs[0]);
    } else {
      OneSurveyOneGroup(ys, k);
      assert ys + [xs[|xs| - 1]] == xs;
      assert [Survey(k, ys)][0 := Survey(k, ys + [xs[|xs| - 1]])] == [Survey(k, xs)];
    }
  }

  /** Two new codes that are not array indices are listed in the order they are met. */
  lemma TextCodesInArrivalOrder(a: Instrument, b: Instrument)
    requires a.surveyTLA != b.surveyTLA && !IsArrayIndex(a.surveyTLA) && !IsArrayIndex(b.surveyTLA)
    ensures GroupBySurvey([a, b]) == [Survey(a.surveyTLA, [a]), Survey(b.surveyTLA, [b])]
  {
    assert [a, b][..1] == [a];
    FirstGroup(a);
  }

  /** A numeric code is listed before a textual one even when it is met second. */
  lemma IndexCodeListedFirst(a: Instrument, b: Instrument)
    requires !IsArrayIndex(a.surveyTLA) && IsArrayIndex(b.surveyTLA)
    ensures GroupBySurvey([a, b]) == [Survey(b.surveyTLA, [b]), Survey(a.surveyTLA, [a])]
  {
    assert [a, b][..1] == [a];
    FirstGroup(a);
    var gs := [Survey(a.surveyTLA, [a])];
    assert IndexSlot(gs, b.surveyTLA) == 0;
    assert gs[..0] + [Survey(b.surveyTLA, [b])] + gs[0..] == [Survey(b.surveyTLA, [b]), Survey(a.surveyTLA, [a])];
  }

  /** Numeric codes are listed by value, not by arrival. */
  lemma IndexCodesByValue(a: Instrument, b: Instrument)
    requires IsArrayIndex(a.surveyTLA) && IsArrayIndex(b.surveyTLA)
    requires DecimalValue(b.surveyTLA) < DecimalValue(a.surveyTLA)
    ensures GroupBySurvey([a, b]) == [Survey(b.surveyTLA, [b]), Survey(a.surveyTLA, [a])]
  {
    assert [a, b][..1] == [a];
    FirstGroup(a);
    var gs := [Survey(a.surveyTLA, [a])];
    assert IndexSlot(gs, b.surveyTLA) == 0;
    assert gs[..0] + [Survey(b.surveyTLA, [b])] + gs[0..] == [Survey(b.surveyTLA, [b]), Survey(a.surveyTLA, [a])];
  }

  /**
   * `getSurveys`: fetch the questionnaires, keep the active ones, enrich
   * them and group them. Any failure on the way fails the whole call.
   */
  function GetSurveys(fetched: Result<seq<Questionnaire>, Failure>, services: Services, vmExternalWebUrl: string)
    : (r: Result<seq<Survey>, Failure>)
    ensures fetched.Failure? ==> r == Failure(fetched.error)
    ensures fetched.Success? ==> (r.Success? <==> AllLookupsSettle(fetched.value, services))
    ensures r.Success? ==> GroupedBySurvey(r.value, EnrichAll(vmExternalWebUrl, Survivors(fetched.value, services)))
  {
    match fetched
    case Failure(e) => Failure(e)
    case Success(all) =>
      match GetActiveTodayQuestionnaires(all, services)
      case Failure(e) => Failure(e)
      case Success(active) =>
        var xs := EnrichAll(vmExternalWebUrl, active);
        GroupBySurveyCorrect(xs);
        Success(GroupBySurvey(xs))
  }

  /** The HTTP reply of the route: 200 with the surveys, or 500 with the error. */
  datatype Reply = Ok(surveys: seq<Survey>) | InternalServerError(error: Failure)

  /** The `/instruments` handler: `res.json(await getSurveys())`, or 500 from the catch. */
  function HandleInstruments(fetched: Result<seq<Questionnaire>, Failure>, services: Services, vmExternalWebUrl: string)
    : (reply: Reply)
    ensures reply.InternalServerError? <==> fetched.Failure? || !AllLookupsSettle(fetched.value, services)
    ensures reply.Ok? ==> Success(reply.surveys) == GetSurveys(fetched, services, vmExternalWebUrl)
  {
    match GetSurveys(fetched, services, vmExternalWebUrl)
    case Failure(e) => InternalServerError(e)
    case Success(surveys) => Ok(surveys)
  }

  /** A grouped instrument is one of the input instruments and carries its group's code. */
  lemma GroupedComeFromInput(gs: seq<Survey>, xs: seq<Instrument>)
    requires HoldsMembers(gs, xs)
    ensures forall i, j :: 0 <= i < |gs| && 0 <= j < |gs[i].questionnaires| ==>
              gs[i].questionnaires[j] in xs && gs[i].questionnaires[j].surveyTLA == gs[i].survey
  {
    forall i, j | 0 <= i < |gs| && 0 <= j < |gs[i].questionnaires|
      ensures gs[i].questionnaires[j] in xs
    {
      MembersComeFromInput(xs, gs[i].survey, gs[i].questionnaires[j]);
    }
  }

  /** An enriched survivor is active today and is the enrichment of a survivor. */
  lemma EnrichedSurvivorsActive(vmExternalWebUrl: string, active: seq<Questionnaire>, services: Services)
    requires forall k :: 0 <= k < |active| ==> Survives(active[k], services)
    ensures forall x :: x in EnrichAll(vmExternalWebUrl, active) ==>
              x.activeToday && Survives(Base(x), services) && x == AddExtraInstrumentFields(vmExternalWebUrl, Base(x))
  {
    var xs := EnrichAll(vmExternalWebUrl, active);
    forall x | x in xs
      ensures x.activeToday && Survives(Base(x), services) && x == AddExtraInstrumentFields(vmExternalWebUrl, Base(x))
    {
      var k :| 0 <= k < |xs| && xs[k] == x;
      EnrichmentRoundTrip(vmExternalWebUrl, active[k]);
    }
  }

  /** Every listed instrument comes from a questionnaire that survived, is active today, and sits under its own code. */
  lemma ListedInstrumentsAreActive(fetched: Result<seq<Questionnaire>, Failure>, services: Services, vmExternalWebUrl: string)
    requires GetSurveys(fetched, services, vmExternalWebUrl).Success?
    ensures var gs := GetSurveys(fetched, services, vmExternalWebUrl).value;
            forall i, j :: 0 <= i < |gs| && 0 <= j < |gs[i].questionnaires| ==>
              var x := gs[i].questionnaires[j];
              x.surveyTLA == gs[i].survey && x.activeToday && Survives(Base(x), services)
              && x == AddExtraInstrumentFields(vmExternalWebUrl, Base(x))
  {
    var gs := GetSurveys(fetched, services, vmExternalWebUrl).value;
    var active := Survivors(fetched.value, services);
    var xs := EnrichAll(vmExternalWebUrl, active);
    assert HoldsMembers(gs, xs);
    GroupedComeFromInput(gs, xs);
    EnrichedSurvivorsActive(vmExternalWebUrl, active, services);
  }

  /** Nothing is lost or duplicated: the response lists each surviving questionnaire exactly once. */
  lemma ListedOncePerSurvivor(fetched: Result<seq<Questionnaire>, Failure>, services: Services, vmExternalWebUrl: string)
    requires GetSurveys(fetched, services, vmExternalWebUrl).Success?
    ensures |Flatten(GetSurveys(fetched, services, vmExternalWebUrl).value)| == |Survivors(fetched.value, services)|
  {
    var gs := GetSurveys(fetched, services, vmExternalWebUrl).value;
    var xs := EnrichAll(vmExternalWebUrl, Survivors(fetched.value, services));
    assert |multiset(Flatten(gs))| == |multiset(xs)|;
  }

  /**
   * A lone questionnaire whose lookup settles: listed by itself under its
   * code when it survives, otherwise an empty list.
   */
  lemma SingleQuestionnaire(q: Questionnaire, services: Services, vmExternalWebUrl: string)
    requires GetActiveTodayQuestionnaire(q, services).Success?
    ensures var x := AddExtraInstrumentFields(vmExternalWebUrl, q);
            GetSurveys(Success([q]), services, vmExternalWebUrl)
              == Success(if Survives(q, services) then [Survey(x.surveyTLA, [x])] else [])
  {
    assert [q][1..] == [];
    var x := AddExtraInstrumentFields(vmExternalWebUrl, q);
    if Survives(q, services) {
      OneSurveyOneGroup([x], x.surveyTLA);
    }
  }
}
