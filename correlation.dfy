/** The alert correlator: sorts firing alarms by the time their state changed,
    chain-clusters them into groups in one linear scan, and annotates each group
    with a root-cause analysis obtained from the AI engine. */
module Correlation {
  import opened Common

  /** Alarms whose state changed more than this many seconds apart are never related. */
  const RelatednessWindow: int := 300

  /** `datetime.min` (0001-01-01T00:00:00Z) in seconds relative to the Unix epoch:
      the time a missing `StateUpdatedTimestamp` stands for when relatedness is checked. */
  const MinTimestamp: int := -62135596800

  /** The Python type of an alarm's sort key: its datetime, or the default `""`. */
  function KeyTypeName(a: Alarm): string {
    if a.timestamp.Some? then "datetime.datetime" else "str"
  }

  /** The TypeError text Python gives when `left < right` has no meaning. */
  function LessThanError(left: string, right: string): string {
    "'<' not supported between instances of '" + left + "' and '" + right + "'"
  }

  /** What `sorted` reports for keys of both types. On a short list CPython's sort scans
      the alarms in order and compares each new key (on the left of `<`) with keys of the
      prefix already sorted, all of the first alarm's type; so the first key of the other
      type is the left operand and the first alarm's type is the right one. */
  function SortError(alarms: seq<Alarm>): (r: string)
    requires MixedTimestamps(alarms)
    ensures exists j :: 0 < j < |alarms| && KeyTypeName(alarms[j]) != KeyTypeName(alarms[0])
                        && r == LessThanError(KeyTypeName(alarms[j]), KeyTypeName(alarms[0]))
    ensures r == LessThanError("str", "datetime.datetime") || r == LessThanError("datetime.datetime", "str")
  {
    var i, j :| 0 <= i < |alarms| && 0 <= j < |alarms| && alarms[i].timestamp.Some? && alarms[j].timestamp.None?;
    var k := if alarms[0].timestamp.Some? then j else i;
    assert 0 < k < |alarms| && KeyTypeName(alarms[k]) != KeyTypeName(alarms[0]);
    LessThanError(if alarms[0].timestamp.Some? then "str" else "datetime.datetime", KeyTypeName(alarms[0]))
  }

  /** A stamped alarm followed by an unstamped one makes `""` the left operand; the other
      order makes the datetime the left operand. */
  lemma SortErrorOfTwo(stamped: Alarm, unstamped: Alarm)
    requires stamped.timestamp.Some? && unstamped.timestamp.None?
    ensures MixedTimestamps([stamped, unstamped]) && MixedTimestamps([unstamped, stamped])
    ensures SortError([stamped, unstamped]) == LessThanError("str", "datetime.datetime")
    ensures SortError([unstamped, stamped]) == LessThanError("datetime.datetime", "str")
  {
    assert [stamped, unstamped][0].timestamp.Some? && [stamped, unstamped][1].timestamp.None?;
    assert [unstamped, stamped][1].timestamp.Some? && [unstamped, stamped][0].timestamp.None?;
  }


  /** A CloudWatch alarm as the correlator reads it: its name, its
      `StateUpdatedTimestamp` in whole seconds, and its `Namespace`. */
  datatype Alarm = Alarm(name: string, timestamp: Option<int>, namespace: Option<string>)

  function Abs(x: int): nat {
    if x < 0 then -x else x
  }

  function Last<T>(s: seq<T>): T
    requires |s| > 0
  {
    s[|s| - 1]
  }

  // ---------------------------------------------------------------------------
  // Relatedness

  /** The timestamp used by `_are_alerts_related`, with `datetime.min` for a missing one. */
  function TimeOrMin(a: Alarm): int {
    a.timestamp.GetOr(MinTimestamp)
  }

  /** `_check_resource_relationship`: a placeholder that relates no two alarms. */
  predicate ResourcesRelated(a: Alarm, b: Alarm) {
    false
  }

  /** `_are_alerts_related`: close enough in time, and the same namespace or related resources. */
  predicate Related(a: Alarm, b: Alarm) {
    Abs(TimeOrMin(a) - TimeOrMin(b)) <= RelatednessWindow
    && (a.namespace == b.namespace || ResourcesRelated(a, b))
  }

  /** With the placeholder resource check, relatedness is "within 300 s and the same
      namespace", where two missing namespaces count as the same; it is symmetric. */
  lemma RelatedMeaning(a: Alarm, b: Alarm)
    ensures Related(a, b) <==> Abs(TimeOrMin(a) - TimeOrMin(b)) <= 300 && a.namespace == b.namespace
    ensures a.namespace == None && b.namespace == None ==>
              (Related(a, b) <==> Abs(TimeOrMin(a) - TimeOrMin(b)) <= 300)
    ensures Related(a, b) == Related(b, a)
  {
  }

  /** An alarm without a timestamp is related only to alarms stamped within 300 s of
      `datetime.min`, so never to an alarm of any later time. */
  lemma MissingTimestampIsEarliest(a: Alarm, b: Alarm, t: int)
    requires a.timestamp == None && b.timestamp == Some(t) && t > MinTimestamp + RelatednessWindow
    ensures !Related(a, b) && !Related(b, a)
  {
  }

  // ---------------------------------------------------------------------------
  // Sorting

  /** The key `x.get("StateUpdatedTimestamp", "")` when sorting does not raise: every
      alarm has a timestamp, or none has and all keys are the same `""`. */
  function SortKey(a: Alarm): int {
    a.timestamp.GetOr(0)
  }

  /** Some alarm has a timestamp and some other has none: `sorted` then has to compare a
      datetime with `""` and raises TypeError. */
  predicate MixedTimestamps(s: seq<Alarm>) {
    exists i, j :: 0 <= i < |s| && 0 <= j < |s| && s[i].timestamp.Some? && s[j].timestamp.None?
  }

  ghost predicate SortedByKey(s: seq<Alarm>) {
    forall i, j :: 0 <= i < j < |s| ==> SortKey(s[i]) <= SortKey(s[j])
  }

  /** Inserts `x` after every element whose key is not greater than its own. */
  function Insert(x: Alarm, s: seq<Alarm>): (r: seq<Alarm>)
    ensures |r| == |s| + 1
    ensures multiset(r) == multiset(s) + multiset{x}
  {
    if s == [] then [x]
    else if SortKey(Last(s)) <= SortKey(x) then s + [x]
    else
      assert s == s[..|s| - 1] + [Last(s)];
      Insert(x, s[..|s| - 1]) + [Last(s)]
  }

  /** Python's `sorted` by `SortKey`: a stable insertion sort. */
  function StableSort(s: seq<Alarm>): (r: seq<Alarm>)
    ensures |r| == |s|
    ensures multiset(r) == multiset(s)
  {
    if s == [] then []
    else
      assert s == s[..|s| - 1] + [Last(s)];
      Insert(Last(s), StableSort(s[..|s| - 1]))
  }

  /** Every alarm of `Insert(x, s)` is one of `s` or `x` itself. */
  lemma InsertBounded(x: Alarm, s: seq<Alarm>, bound: int)
    requires SortKey(x) <= bound && forall y :: y in s ==> SortKey(y) <= bound
    ensures forall y :: y in Insert(x, s) ==> SortKey(y) <= bound
  {
    forall y | y in Insert(x, s) ensures SortKey(y) <= bound {
      assert y in multiset(Insert(x, s));
      assert y in multiset(s) || y == x;
    }
  }

  lemma {:induction false} InsertSorted(x: Alarm, s: seq<Alarm>)
    requires SortedByKey(s)
    ensures SortedByKey(Insert(x, s))
    decreases |s|
  {
    if s == [] {
    } else if SortKey(Last(s)) <= SortKey(x) {
      var r := s + [x];
      forall i, j | 0 <= i < j < |r| ensures SortKey(r[i]) <= SortKey(r[j]) {
        if j == |s| {
          assert SortKey(s[i]) <= SortKey(Last(s));
        }
      }
    } else {
      var init, last := s[..|s| - 1], Last(s);
      assert SortedByKey(init) by {
        forall i, j | 0 <= i < j < |init| ensures SortKey(init[i]) <= SortKey(init[j]) {
          assert init[i] == s[i] && init[j] == s[j];
        }
      }
      InsertSorted(x, init);
      var r' := Insert(x, init);
      assert forall y :: y in r' ==> SortKey(y) <= SortKey(last) by {
        forall y | y in init ensures SortKey(y) <= SortKey(last) {
          var i :| 0 <= i < |init| && init[i] == y;
          assert s[i] == y;
        }
        InsertBounded(x, init, SortKey(last));
      }
      var r := r' + [last];
      forall i, j | 0 <= i < j < |r| ensures SortKey(r[i]) <= SortKey(r[j]) {
        if j == |r'| {
          assert r[i] == r'[i] && r'[i] in r';
        } else {
          assert r[i] == r'[i] && r[j] == r'[j];
        }
      }
    }
  }

  /** The sort orders alarms by key. */
  lemma {:induction false} StableSortSorted(s: seq<Alarm>)
    ensures SortedByKey(StableSort(s))
    decreases |s|
  {
    if s != [] {
      StableSortSorted(s[..|s| - 1]);
      InsertSorted(Last(s), StableSort(s[..|s| - 1]));
    }
  }

  /** The alarms of `s` whose key is `k`, in their order in `s`. */
  function WithKey(s: seq<Alarm>, k: int): seq<Alarm> {
    if s == [] then []
    else WithKey(s[..|s| - 1], k) + (if SortKey(Last(s)) == k then [Last(s)] else [])
  }

  lemma {:induction false} WithKeyAppend(a: seq<Alarm>, b: seq<Alarm>, k: int)
    ensures WithKey(a + b, k) == WithKey(a, k) + WithKey(b, k)
    decreases |b|
  {
    if b != [] {
      assert (a + b)[..|a + b| - 1] == a + b[..|b| - 1];
      WithKeyAppend(a, b[..|b| - 1], k);
    } else {
      assert a + b == a;
    }
  }

  /** Inserting `x` adds it to the alarms of its own key, after those already there. */
  lemma {:induction false} InsertWithKey(x: Alarm, s: seq<Alarm>, k: int)
    ensures WithKey(Insert(x, s), k) == WithKey(s, k) + (if SortKey(x) == k then [x] else [])
    decreases |s|
  {
    var kx := if SortKey(x) == k then [x] else [];
    if s == [] {
      assert [x][..0] == [];
      assert WithKey([x], k) == WithKey([], k) + kx;
    } else if SortKey(Last(s)) <= SortKey(x) {
      var t := s + [x];
      assert t[..|t| - 1] == s && Last(t) == x;
      assert WithKey(t, k) == WithKey(s, k) + kx;
    } else {
      var init, last := s[..|s| - 1], Last(s);
      var kl := if SortKey(last) == k then [last] else [];
      var r := Insert(x, init);
      assert Insert(x, s) == r + [last];
      InsertWithKey(x, init, k);
      var t := r + [last];
      assert t[..|t| - 1] == r && Last(t) == last;
      assert WithKey(t, k) == WithKey(r, k) + kl;
      assert WithKey(s, k) == WithKey(init, k) + kl;
      assert kx == [] || kl == [];
      if kx == [] {
        assert WithKey(init, k) + kx == WithKey(init, k);
        assert WithKey(s, k) + kx == WithKey(s, k);
      } else {
        assert WithKey(s, k) == WithKey(init, k);
        assert WithKey(t, k) == WithKey(r, k);
      }
    }
  }


  /** Stability: among alarms with the same key, the sort keeps the input order. */
  lemma {:induction false} StableSortIsStable(s: seq<Alarm>, k: int)
    ensures WithKey(StableSort(s), k) == WithKey(s, k)
    decreases |s|
  {
    if s != [] {
      StableSortIsStable(s[..|s| - 1], k);
      InsertWithKey(Last(s), StableSort(s[..|s| - 1]), k);
    }
  }

  // ---------------------------------------------------------------------------
  // Grouping

  /** The groups, concatenated in order. */
  function Flatten(gs: seq<seq<Alarm>>): seq<Alarm> {
    if gs == [] then [] else Flatten(gs[..|gs| - 1]) + Last(gs)
  }

  /** `gs` chain-clusters `s`: the groups concatenate to `s`, none is empty, every
      alarm is related to the one before it in its group, and the last alarm of a
      group is not related to the first alarm of the next. */
  ghost predicate IsChainGrouping(gs: seq<seq<Alarm>>, s: seq<Alarm>) {
    && Flatten(gs) == s
    && (forall k :: 0 <= k < |gs| ==> gs[k] != [])
    && (forall k, i :: 0 <= k < |gs| && 0 < i < |gs[k]| ==> Related(gs[k][i - 1], gs[k][i]))
    && (forall j, k :: 0 <= j < k < |gs| && k == j + 1 ==> Separated(gs[j], gs[k]))
  }

  /** The last alarm of group `g` is not related to the first alarm of the next group `h`. */
  predicate Separated(g: seq<Alarm>, h: seq<Alarm>) {
    g != [] && h != [] && !Related(Last(g), h[0])
  }

  /** The groups `_group_alerts` forms from an already sorted sequence: each alarm joins
      the current (last) group when it is related to that group's last alarm, and
      starts a new group otherwise. */
  function ChainGroups(s: seq<Alarm>): (gs: seq<seq<Alarm>>)
    ensures gs == [] <==> s == []
    ensures forall k :: 0 <= k < |gs| ==> gs[k] != []
  {
    if s == [] then [] else Chain(ChainGroups(s[..|s| - 1]), Last(s))
  }

  /** One step of the scan: `x` joins the last group when related to its last alarm,
      and starts a new group otherwise. */
  function Chain(gs: seq<seq<Alarm>>, x: Alarm): (r: seq<seq<Alarm>>)
    requires forall k :: 0 <= k < |gs| ==> gs[k] != []
    ensures r != [] && forall k :: 0 <= k < |r| ==> r[k] != []
  {
    if gs == [] then [[x]]
    else if Related(Last(Last(gs)), x) then gs[..|gs| - 1] + [Last(gs) + [x]]
    else gs + [[x]]
  }

  /** Appending a related alarm to the last group keeps a chain grouping. */
  lemma ExtendLastGroup(gs: seq<seq<Alarm>>, s: seq<Alarm>, x: Alarm)
    requires IsChainGrouping(gs, s) && gs != [] && Related(Last(Last(gs)), x)
    ensures IsChainGrouping(gs[..|gs| - 1] + [Last(gs) + [x]], s + [x])
  {
    var r := gs[..|gs| - 1] + [Last(gs) + [x]];
    ExtendFlatten(gs, x);
    forall k | 0 <= k < |r| ensures r[k] != [] {
      if k < |gs| - 1 {
        assert r[k] == gs[k];
      }
    }
    ExtendRelated(gs, x);
    ExtendSeparated(gs, x);
  }

  lemma ExtendFlatten(gs: seq<seq<Alarm>>, x: Alarm)
    requires gs != []
    ensures Flatten(gs[..|gs| - 1] + [Last(gs) + [x]]) == Flatten(gs) + [x]
  {
    var front, g := gs[..|gs| - 1], Last(gs);
    var r := front + [g + [x]];
    assert Flatten(r) == Flatten(front) + (g + [x]) by {
      Snoc(front, g + [x]);
    }
    assert Flatten(gs) == Flatten(front) + g;
    Associative(Flatten(front), g, [x]);
  }

  lemma Associative<T>(a: seq<T>, b: seq<T>, c: seq<T>)
    ensures (a + b) + c == a + (b + c)
  {
  }

  /** The prefix and the last element of a sequence extended by one element. */
  lemma Snoc<T>(a: seq<T>, y: T)
    ensures (a + [y])[..|a|] == a && |a + [y]| == |a| + 1 && Last(a + [y]) == y
  {
  }


  lemma ExtendRelated(gs: seq<seq<Alarm>>, x: Alarm)
    requires gs != [] && Last(gs) != []
    requires forall k, i :: 0 <= k < |gs| && 0 < i < |gs[k]| ==> Related(gs[k][i - 1], gs[k][i])
    requires Related(Last(Last(gs)), x)
    ensures var r := gs[..|gs| - 1] + [Last(gs) + [x]];
            forall k, i :: 0 <= k < |r| && 0 < i < |r[k]| ==> Related(r[k][i - 1], r[k][i])
  {
    var n, g := |gs|, Last(gs);
    var r := gs[..n - 1] + [g + [x]];
    forall k, i | 0 <= k < |r| && 0 < i < |r[k]| ensures Related(r[k][i - 1], r[k][i]) {
      if k < n - 1 {
        assert r[k] == gs[k];
      } else if i < |g| {
        assert r[k][i - 1] == gs[n - 1][i - 1] && r[k][i] == gs[n - 1][i];
      } else {
        assert r[k][i - 1] == Last(g) && r[k][i] == x;
      }
    }
  }

  lemma ExtendSeparated(gs: seq<seq<Alarm>>, x: Alarm)
    requires gs != [] && Last(gs) != []
    requires forall j, k :: 0 <= j < k < |gs| && k == j + 1 ==> Separated(gs[j], gs[k])
    ensures var r := gs[..|gs| - 1] + [Last(gs) + [x]];
            forall j, k :: 0 <= j < k < |r| && k == j + 1 ==> Separated(r[j], r[k])
  {
    var r := gs[..|gs| - 1] + [Last(gs) + [x]];
    forall j, k | 0 <= j < k < |r| && k == j + 1 ensures Separated(r[j], r[k]) {
      assert r[j] == gs[j];
      assert r[k][0] == gs[k][0];
    }
  }

  /** Starting a new group with an alarm unrelated to the last one keeps a chain grouping. */
  lemma StartGroup(gs: seq<seq<Alarm>>, s: seq<Alarm>, x: Alarm)
    requires IsChainGrouping(gs, s) && (gs != [] ==> !Related(Last(Last(gs)), x))
    ensures IsChainGrouping(gs + [[x]], s + [x])
  {
    var r := gs + [[x]];
    assert r[..|r| - 1] == gs;
    forall k, i | 0 <= k < |r| && 0 < i < |r[k]| ensures Related(r[k][i - 1], r[k][i]) {
      assert k < |gs|;
      assert r[k] == gs[k];
    }
    forall j, k | 0 <= j < k < |r| && k == j + 1 ensures Separated(r[j], r[k]) {
      assert r[j] == gs[j];
    }
  }

  /** One scan step keeps a chain grouping. */
  lemma ChainKeepsGrouping(gs: seq<seq<Alarm>>, s: seq<Alarm>, x: Alarm)
    requires IsChainGrouping(gs, s)
    ensures IsChainGrouping(Chain(gs, x), s + [x])
  {
    if gs != [] && Related(Last(Last(gs)), x) {
      ExtendLastGroup(gs, s, x);
    } else {
      StartGroup(gs, s, x);
    }
  }

  /** The groups partition the sorted alarms exactly, related within and unrelated across. */
  lemma {:induction false} ChainGroupsCorrect(s: seq<Alarm>)
    ensures IsChainGrouping(ChainGroups(s), s)
    decreases |s|
  {
    if s != [] {
      var init := s[..|s| - 1];
      var x := Last(s);
      assert s == init + [x];
      ChainGroupsCorrect(init);
      var gs := ChainGroups(init);
      assert ChainGroups(s) == Chain(gs, x);
      ChainKeepsGrouping(gs, init, x);
    }
  }

  lemma ChainGroupsPrefix(s: seq<Alarm>, i: nat)
    requires i < |s|
    ensures ChainGroups(s[..i + 1]) == Chain(ChainGroups(s[..i]), s[i])
  {
    assert s[..i + 1][..i] == s[..i];
  }

  /** The scan step seen from the open group `current` after the closed `groups`. */
  lemma ChainStep(groups: seq<seq<Alarm>>, current: seq<Alarm>, x: Alarm)
    requires current != [] && forall k :: 0 <= k < |groups| ==> groups[k] != []
    ensures forall k :: 0 <= k < |groups + [current]| ==> (groups + [current])[k] != []
    ensures Chain(groups + [current], x)
            == if Related(current[|current| - 1], x) then groups + [current + [x]] else groups + [current] + [[x]]
  {
    assert (groups + [current])[..|groups|] == groups;
  }

  /** `_group_alerts`: sorts the alarms, then scans them once, comparing each alarm only
      with the last member of the current group. Sorting raises when timestamps are
      present on some alarms and missing on others. */
  method GroupAlerts(alarms: seq<Alarm>) returns (r: Result<seq<seq<Alarm>>>)
    ensures r.Failure? <==> MixedTimestamps(alarms)
    ensures r.Failure? ==> r.error == SortError(alarms)
    ensures r.Success? ==> r.value == ChainGroups(StableSort(alarms))
  {
    if MixedTimestamps(alarms) {
      return Failure(SortError(alarms));
    }
    var sorted := StableSort(alarms);
    var groups: seq<seq<Alarm>> := [];
    var current: seq<Alarm> := [];
    for i := 0 to |sorted|
      invariant i == 0 ==> groups == [] && current == []
      invariant i > 0 ==> current != [] && groups + [current] == ChainGroups(sorted[..i])
    {
      var alarm := sorted[i];
      ChainGroupsPrefix(sorted, i);
      if current == [] {
        current := [alarm];
      } else if Related(current[|current| - 1], alarm) {
        ChainStep(groups, current, alarm);
        current := current + [alarm];
      } else {
        ChainStep(groups, current, alarm);
        groups := groups + [current];
        current := [alarm];
      }
    }
    if current != [] {
      groups := groups + [current];
    }
    assert sorted[..|sorted|] == sorted;
    return Success(groups);
  }

  // ---------------------------------------------------------------------------
  // Annotation

  /** Recent incidents from the incident store (opaque records). */
  datatype History = History(recentIncidents: seq<Dict>)

  /** The fields of an AI analysis that the correlator reads; each may be absent. */
  datatype Analysis = Analysis(rootCause: Option<string>, confidence: Option<real>,
                               actions: Option<seq<Action>>, error: Option<string>)

  /** One entry of the `groups` list of a correlation result. */
  datatype GroupReport =
    | Annotated(alerts: seq<Alarm>, rootCause: string, confidence: real, recommendedActions: seq<Action>)
    | GroupFailed(alerts: seq<Alarm>, error: string)

  /** A correlation result: `status="success"` with its groups, or `status="error"`. */
  datatype Correlation = Correlated(groups: seq<GroupReport>) | CorrelationFailed(error: string)

  /** The incident-store scan and the AI engine's `evaluate`, as calls on a group. */
  datatype Analysts = Analysts(history: seq<Alarm> -> Call<History>,
                               evaluate: (seq<Alarm>, History) -> Call<Analysis>)

  /** `_get_historical_context`: a client error gives an empty history; any other
      exception propagates to the caller. */
  function HistoricalContext(call: Call<History>): (r: Result<History>)
    ensures call.Raised? <==> r.Failure?
    ensures call.ClientError? ==> r == Success(History([]))
    ensures call.Returned? ==> r == Success(call.value)
  {
    match call
    case Returned(h) => Success(h)
    case ClientError(_) => Success(History([]))
    case Raised(m) => Failure(m)
  }

  /** `_analyze_with_ai`: the AI engine's answer, or on any exception the fallback
      `root_cause="unknown"`, `confidence=0.0`, `actions=[]` together with the error. */
  function AnalyzeWithAi(call: Call<Analysis>): (a: Analysis)
    ensures call.Returned? ==> a == call.value
    ensures call.ClientError? || call.Raised? ==>
              a.rootCause == Some("unknown") && a.confidence == Some(0.0) && a.actions == Some([])
              && a.error == Some(call.message)
  {
    match call
    case Returned(v) => v
    case ClientError(m) => Analysis(Some("unknown"), Some(0.0), Some([]), Some(m))
    case Raised(m) => Analysis(Some("unknown"), Some(0.0), Some([]), Some(m))
  }

  /** The report for one group: the analysis with defaults for absent fields, or an
      error entry when fetching the history raised. The group's alarms are kept as they are. */
  function AnnotateGroup(g: seq<Alarm>, analysts: Analysts): (r: GroupReport)
    ensures r.alerts == g
    ensures r.GroupFailed? <==> analysts.history(g).Raised?
    ensures r.GroupFailed? ==> r.error == analysts.history(g).message
    ensures r.Annotated? ==>
              var a := AnalyzeWithAi(analysts.evaluate(g, HistoricalContext(analysts.history(g)).value));
              && (a.rootCause.None? ==> r.rootCause == "unknown")
              && (a.confidence.None? ==> r.confidence == 0.0)
              && (a.actions.None? ==> r.recommendedActions == [])
              && (a.rootCause.Some? ==> r.rootCause == a.rootCause.value)
              && (a.confidence.Some? ==> r.confidence == a.confidence.value)
              && (a.actions.Some? ==> r.recommendedActions == a.actions.value)
  {
    match HistoricalContext(analysts.history(g))
    case Failure(e) => GroupFailed(g, e)
    case Success(h) =>
      var a := AnalyzeWithAi(analysts.evaluate(g, h));
      Annotated(g, a.rootCause.GetOr("unknown"), a.confidence.GetOr(0.0), a.actions.GetOr([]))
  }

  /** `correlate_alerts` as a function of its inputs. */
  function Correlate(alarms: seq<Alarm>, analysts: Analysts): (c: Correlation)
    ensures alarms == [] ==> c == Correlated([])
    ensures c.CorrelationFailed? <==> MixedTimestamps(alarms)
    ensures c.CorrelationFailed? ==> c.error == SortError(alarms)
    ensures c.Correlated? && alarms != [] ==> c.groups == AnnotateAll(ChainGroups(StableSort(alarms)), analysts)
  {
    if alarms == [] then Correlated([])
    else if MixedTimestamps(alarms) then CorrelationFailed(SortError(alarms))
    else
      Correlated(AnnotateAll(ChainGroups(StableSort(alarms)), analysts))
  }

  /** One report per group, in group order. */
  function AnnotateAll(groups: seq<seq<Alarm>>, analysts: Analysts): (r: seq<GroupReport>)
    ensures |r| == |groups| && forall k :: 0 <= k < |groups| ==> r[k] == AnnotateGroup(groups[k], analysts)
  {
    seq(|groups|, k requires 0 <= k < |groups| => AnnotateGroup(groups[k], analysts))
  }

  /** The alarms of each report, in report order. */
  function AlertsOf(reports: seq<GroupReport>): (r: seq<seq<Alarm>>)
    ensures |r| == |reports| && forall k :: 0 <= k < |r| ==> r[k] == reports[k].alerts
  {
    seq(|reports|, k requires 0 <= k < |reports| => reports[k].alerts)
  }

  /** A successful correlation has one report per group; concatenated, their alarms are
      the stably sorted input, so every alarm is in exactly one group; groups are non-empty,
      chained by relatedness inside and separated by unrelatedness at their boundaries. */
  lemma CorrelationPartitionsAlarms(alarms: seq<Alarm>, analysts: Analysts)
    requires Correlate(alarms, analysts).Correlated?
    ensures var reports := Correlate(alarms, analysts).groups;
            && IsChainGrouping(AlertsOf(reports), StableSort(alarms))
            && multiset(Flatten(AlertsOf(reports))) == multiset(alarms)
            && SortedByKey(Flatten(AlertsOf(reports)))
  {
    var sorted := StableSort(alarms);
    var reports := Correlate(alarms, analysts).groups;
    assert AlertsOf(reports) == ChainGroups(sorted) by {
      if alarms == [] {
        assert sorted == [];
      } else {
        AlertsOfAnnotated(ChainGroups(sorted), analysts);
      }
    }
    ChainGroupsCorrect(sorted);
    StableSortSorted(alarms);
  }

  /** Annotating keeps every group's alarms. */
  lemma AlertsOfAnnotated(groups: seq<seq<Alarm>>, analysts: Analysts)
    ensures AlertsOf(AnnotateAll(groups, analysts)) == groups
  {
    var r := AlertsOf(AnnotateAll(groups, analysts));
    forall k | 0 <= k < |groups| ensures r[k] == groups[k] {
    }
  }

  /** A group whose analysis failed carries only that group's error: every other
      report depends on its own group alone. */
  lemma GroupFailureIsIsolated(alarms: seq<Alarm>, analysts: Analysts, analysts': Analysts, k: nat)
    requires Correlate(alarms, analysts).Correlated?
    requires k < |Correlate(alarms, analysts).groups|
    requires var g := Correlate(alarms, analysts).groups[k].alerts;
             analysts.history(g) == analysts'.history(g)
             && forall h :: analysts.evaluate(g, h) == analysts'.evaluate(g, h)
    ensures Correlate(alarms, analysts').Correlated?
    ensures Correlate(alarms, analysts').groups[k] == Correlate(alarms, analysts).groups[k]
  {
  }

  /** `correlate_alerts`: an empty alarm list succeeds with no groups; otherwise the
      alarms are grouped and each group is annotated in turn, a failing group yielding
      an error entry for that group only. */
  method CorrelateAlerts(alarms: seq<Alarm>, analysts: Analysts) returns (c: Correlation)
    ensures c == Correlate(alarms, analysts)
  {
    if alarms == [] {
      return Correlated([]);
    }
    var grouped := GroupAlerts(alarms);
    if grouped.Failure? {
      return CorrelationFailed(grouped.error);
    }
    var results := AnnotateGroups(grouped.value, analysts);
    return Correlated(results);
  }

  /** The per-group loop of `correlate_alerts`: each group is annotated in turn. */
  method AnnotateGroups(groups: seq<seq<Alarm>>, analysts: Analysts) returns (results: seq<GroupReport>)
    ensures results == AnnotateAll(groups, analysts)
  {
    results := [];
    for k := 0 to |groups|
      invariant |results| == k
      invariant forall j :: 0 <= j < k ==> results[j] == AnnotateGroup(groups[j], analysts)
    {
      results := results + [AnnotateGroup(groups[k], analysts)];
    }
  }
}
