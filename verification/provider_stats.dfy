/** The usage-statistics aggregation: the stored usage events of the last 24 hours
    that carry an operation type are grouped by (host, provider type), counted per
    operation type, totalled, and listed with the busiest provider first. */
module StatsAggregation {
  import opened UsenetTypes

  /** A usage event as stored; `createdAt` is in seconds. */
  datatype StoredEvent = StoredEvent(
    providerHost: string,
    providerType: ProviderType,
    operationType: Option<OperationType>,
    createdAt: int)

  /** The statistics window, 24 hours, in seconds. */
  const TimeWindowSeconds: int := 24 * 60 * 60

  /** An event is counted when it is inside the window ending at `now` and has an
      operation type. */
  predicate Qualifies(e: StoredEvent, now: int) {
    e.createdAt >= now - TimeWindowSeconds && e.operationType.Some?
  }

  /** The query: the qualifying events, in stored order. */
  function QualifyingEvents(events: seq<StoredEvent>, now: int): (q: seq<StoredEvent>)
    ensures forall e :: e in q <==> e in events && Qualifies(e, now)
    ensures |q| <= |events|
  {
    if events == [] then []
    else
      var init, last := events[..|events| - 1], events[|events| - 1];
      assert events == init + [last];
      QualifyingEvents(init, now) + (if Qualifies(last, now) then [last] else [])
  }

  /** The grouping key of the statistics. */
  datatype ProviderKey = ProviderKey(host: string, providerType: ProviderType)

  function KeyOf(e: StoredEvent): ProviderKey {
    ProviderKey(e.providerHost, e.providerType)
  }

  /** How many events have key `k`. */
  function CountKey(q: seq<StoredEvent>, k: ProviderKey): nat {
    if q == [] then 0
    else CountKey(q[..|q| - 1], k) + (if KeyOf(q[|q| - 1]) == k then 1 else 0)
  }

  /** How many events have key `k` and operation type `op`. */
  function CountKeyOp(q: seq<StoredEvent>, k: ProviderKey, op: OperationType): nat {
    if q == [] then 0
    else CountKeyOp(q[..|q| - 1], k, op) + (if KeyOf(q[|q| - 1]) == k && q[|q| - 1].operationType == Some(op) then 1 else 0)
  }

  predicate Distinct<T(==)>(s: seq<T>) {
    forall a, b :: 0 <= a < b < |s| ==> s[a] != s[b]
  }

  /** The GroupBy step: the distinct keys, in order of first appearance. */
  function GroupKeys(q: seq<StoredEvent>): (ks: seq<ProviderKey>)
    ensures forall k :: k in ks <==> CountKey(q, k) > 0
    ensures Distinct(ks)
  {
    if q == [] then []
    else
      var init := GroupKeys(q[..|q| - 1]);
      var k := KeyOf(q[|q| - 1]);
      if k in init then init else init + [k]
  }

  const AllOperations: set<OperationType> := {STAT, HEAD, BODY, ARTICLE, DATE}

  lemma EveryOperationListed()
    ensures forall op: OperationType :: op in AllOperations
  {
    forall op: OperationType ensures op in AllOperations {
      match op
      case STAT =>
      case HEAD =>
      case BODY =>
      case ARTICLE =>
      case DATE =>
    }
  }

  /** The per-operation dictionary of one group: the operation types that occur, each
      with its number of events. */
  function OperationCounts(q: seq<StoredEvent>, k: ProviderKey): (counts: map<OperationType, nat>)
    ensures forall op :: op in counts <==> CountKeyOp(q, k, op) > 0
    ensures forall op :: op in counts ==> counts[op] == CountKeyOp(q, k, op)
  {
    EveryOperationListed();
    map op | op in AllOperations && CountKeyOp(q, k, op) > 0 :: CountKeyOp(q, k, op)
  }

  /** The sum of the values of an operation-count dictionary. */
  function SumCounts(counts: map<OperationType, nat>): nat {
    CountIn(counts, STAT) + CountIn(counts, HEAD) + CountIn(counts, BODY)
      + CountIn(counts, ARTICLE) + CountIn(counts, DATE)
  }

  function CountIn(counts: map<OperationType, nat>, op: OperationType): nat {
    if op in counts then counts[op] else 0
  }

  /** One provider entry of a snapshot. */
  datatype ProviderStats = ProviderStats(
    providerHost: string,
    providerType: ProviderType,
    totalOperations: nat,
    operationCounts: map<OperationType, nat>)

  function StatsKey(p: ProviderStats): ProviderKey {
    ProviderKey(p.providerHost, p.providerType)
  }

  /** A published snapshot; `timeWindowSeconds` is the window length. */
  datatype ProviderStatsResponse = ProviderStatsResponse(
    providers: seq<ProviderStats>,
    totalOperations: nat,
    calculatedAt: int,
    timeWindowSeconds: int)

  /** The entry of one group. */
  function Entry(q: seq<StoredEvent>, k: ProviderKey): ProviderStats {
    ProviderStats(k.host, k.providerType, CountKey(q, k), OperationCounts(q, k))
  }

  /** The Select step over the groups, in group order. */
  function Entries(q: seq<StoredEvent>, ks: seq<ProviderKey>): (es: seq<ProviderStats>)
    ensures |es| == |ks|
    ensures forall i :: 0 <= i < |ks| ==> es[i] == Entry(q, ks[i])
  {
    if ks == [] then [] else [Entry(q, ks[0])] + Entries(q, ks[1..])
  }

  /** The sum of the entries' totals. */
  function TotalOf(es: seq<ProviderStats>): nat {
    if es == [] then 0 else es[0].totalOperations + TotalOf(es[1..])
  }

  /** Places `p` before the first entry with a total not above its own. */
  function InsertByTotal(p: ProviderStats, s: seq<ProviderStats>): (r: seq<ProviderStats>)
    ensures multiset(r) == multiset(s) + multiset{p}
    ensures |r| == |s| + 1
  {
    if s == [] || p.totalOperations >= s[0].totalOperations then [p] + s
    else
      assert s == [s[0]] + s[1..];
      [s[0]] + InsertByTotal(p, s[1..])
  }

  /** The OrderByDescending step, stable: entries with equal totals keep group order. */
  function SortByTotal(s: seq<ProviderStats>): (r: seq<ProviderStats>)
    ensures multiset(r) == multiset(s)
    ensures |r| == |s|
  {
    if s == [] then []
    else
      assert s == [s[0]] + s[1..];
      InsertByTotal(s[0], SortByTotal(s[1..]))
  }

  /** The snapshot a computation publishes from the stored `events`; `now` is the
      clock reading that fixes the window and `calculatedAt` the one stamped on it. */
  function CalculateStats(events: seq<StoredEvent>, now: int, calculatedAt: int): (r: ProviderStatsResponse)
    ensures r.totalOperations == |QualifyingEvents(events, now)|
    ensures r.calculatedAt == calculatedAt && r.timeWindowSeconds == TimeWindowSeconds
  {
    var q := QualifyingEvents(events, now);
    if |q| == 0 then
      ProviderStatsResponse([], 0, calculatedAt, TimeWindowSeconds)
    else
      ProviderStatsResponse(Published(q), |q|, calculatedAt, TimeWindowSeconds)
  }

  // ---------------------------------------------------------------------------
  // Properties of the aggregation

  /** Filtering distributes over concatenation. */
  lemma {:induction false} QualifyingAppend(a: seq<StoredEvent>, b: seq<StoredEvent>, now: int)
    ensures QualifyingEvents(a + b, now) == QualifyingEvents(a, now) + QualifyingEvents(b, now)
    decreases |b|
  {
    if b == [] {
      assert a + b == a;
    } else {
      var init, last := b[..|b| - 1], b[|b| - 1];
      assert a + b == (a + init) + [last];
      assert (a + b)[..|a + b| - 1] == a + init;
      QualifyingAppend(a, init, now);
    }
  }

  /** An event outside the window, or without an operation type, is filtered out. */
  lemma NonQualifyingEventFiltered(a: seq<StoredEvent>, e: StoredEvent, b: seq<StoredEvent>, now: int)
    requires !Qualifies(e, now)
    ensures QualifyingEvents(a + [e] + b, now) == QualifyingEvents(a + b, now)
  {
    assert (a + [e])[..|a|] == a;
    assert QualifyingEvents(a + [e], now) == QualifyingEvents(a, now);
    QualifyingAppend(a + [e], b, now);
    QualifyingAppend(a, b, now);
  }

  /** An event outside the window, or without an operation type, changes nothing in the
      snapshot. */
  lemma NonQualifyingEventsIgnored(a: seq<StoredEvent>, e: StoredEvent, b: seq<StoredEvent>, now: int, calculatedAt: int)
    requires !Qualifies(e, now)
    ensures CalculateStats(a + [e] + b, now, calculatedAt) == CalculateStats(a + b, now, calculatedAt)
  {
    NonQualifyingEventFiltered(a, e, b, now);
  }

  /** A snapshot has no provider entries exactly when no event qualifies, and then its
      total is 0; the window is always 24 hours. */
  lemma {:induction false} EmptyWindowPublishesEmptySnapshot(events: seq<StoredEvent>, now: int, calculatedAt: int)
    ensures var r := CalculateStats(events, now, calculatedAt);
      && (r.providers == [] <==> QualifyingEvents(events, now) == [])
      && (r.providers == [] ==> r.totalOperations == 0)
      && r.timeWindowSeconds == 24 * 60 * 60
      && r.calculatedAt == calculatedAt
  {
    var q := QualifyingEvents(events, now);
    if q != [] {
      assert CountKey(q, KeyOf(q[|q| - 1])) > 0;
    }
  }

  /** Adding one event counts it under its own key only. */
  lemma {:induction false} CountKeyAppend(q: seq<StoredEvent>, e: StoredEvent, k: ProviderKey)
    ensures CountKey(q + [e], k) == CountKey(q, k) + (if KeyOf(e) == k then 1 else 0)
  {
    assert (q + [e])[..|q|] == q;
  }

  /** The group sizes of `ks`, summed. */
  function KeysTotal(q: seq<StoredEvent>, ks: seq<ProviderKey>): nat {
    if ks == [] then 0 else CountKey(q, ks[0]) + KeysTotal(q, ks[1..])
  }

  lemma {:induction false} EntriesTotal(q: seq<StoredEvent>, ks: seq<ProviderKey>)
    ensures TotalOf(Entries(q, ks)) == KeysTotal(q, ks)
  {
    if ks != [] {
      EntriesTotal(q, ks[1..]);
    }
  }

  /** Summed over distinct keys, the group sizes grow by one when an event with one of
      those keys is added. */
  lemma {:induction false} KeysTotalAppendEvent(q: seq<StoredEvent>, e: StoredEvent, ks: seq<ProviderKey>)
    requires Distinct(ks)
    ensures KeysTotal(q + [e], ks) == KeysTotal(q, ks) + (if KeyOf(e) in ks then 1 else 0)
  {
    if ks != [] {
      var k, rest := ks[0], ks[1..];
      assert Distinct(rest) by {
        forall a, b | 0 <= a < b < |rest| ensures rest[a] != rest[b] {
          assert rest[a] == ks[a + 1] && rest[b] == ks[b + 1];
        }
      }
      CountKeyAppend(q, e, k);
      KeysTotalAppendEvent(q, e, rest);
      assert KeyOf(e) in ks <==> KeyOf(e) == k || KeyOf(e) in rest by {
        assert ks == [k] + rest;
      }
      if KeyOf(e) == k {
        assert k !in rest by {
          forall j | 0 <= j < |rest| ensures rest[j] != k {
            assert rest[j] == ks[j + 1];
          }
        }
      }
    }
  }

  /** Adding a key at the end adds its group's size. */
  lemma {:induction false} KeysTotalAppendKey(q: seq<StoredEvent>, ks: seq<ProviderKey>, k: ProviderKey)
    ensures KeysTotal(q, ks + [k]) == KeysTotal(q, ks) + CountKey(q, k)
  {
    if ks == [] {
      assert ks + [k] == [k];
      assert [k][1..] == [];
    } else {
      assert (ks + [k])[1..] == ks[1..] + [k];
      KeysTotalAppendKey(q, ks[1..], k);
    }
  }

  /** The group sizes add up to the number of events. */
  lemma {:induction false} GroupTotalsCoverEvents(q: seq<StoredEvent>)
    ensures KeysTotal(q, GroupKeys(q)) == |q|
  {
    if q != [] {
      var init, e := q[..|q| - 1], q[|q| - 1];
      assert q == init + [e];
      GroupTotalsCoverEvents(init);
      var ks := GroupKeys(init);
      KeysTotalAppendEvent(init, e, ks);
      if KeyOf(e) !in ks {
        KeysTotalAppendKey(q, ks, KeyOf(e));
        CountKeyAppend(init, e, KeyOf(e));
      }
    }
  }

  lemma {:induction false} InsertByTotalSum(p: ProviderStats, s: seq<ProviderStats>)
    ensures TotalOf(InsertByTotal(p, s)) == p.totalOperations + TotalOf(s)
  {
    if !(s == [] || p.totalOperations >= s[0].totalOperations) {
      InsertByTotalSum(p, s[1..]);
    }
  }

  lemma {:induction false} SortByTotalSum(s: seq<ProviderStats>)
    ensures TotalOf(SortByTotal(s)) == TotalOf(s)
  {
    if s != [] {
      SortByTotalSum(s[1..]);
      InsertByTotalSum(s[0], SortByTotal(s[1..]));
    }
  }

  /** The snapshot total is the number of qualifying events and the sum of the
      provider totals. */
  lemma SnapshotTotalMatchesEvents(events: seq<StoredEvent>, now: int, calculatedAt: int)
    ensures var r := CalculateStats(events, now, calculatedAt);
      && r.totalOperations == |QualifyingEvents(events, now)|
      && r.totalOperations == TotalOf(r.providers)
  {
    var q := QualifyingEvents(events, now);
    if |q| > 0 {
      GroupTotalsCoverEvents(q);
      EntriesTotal(q, GroupKeys(q));
      SortByTotalSum(Entries(q, GroupKeys(q)));
    }
  }

  /** No two entries are for the same (host, provider type) pair. */
  predicate DistinctKeys(ps: seq<ProviderStats>) {
    forall a, b :: 0 <= a < b < |ps| ==> StatsKey(ps[a]) != StatsKey(ps[b])
  }

  /** The pairs that have an entry. */
  function KeySet(ps: seq<ProviderStats>): set<ProviderKey> {
    set p | p in ps :: StatsKey(p)
  }

  lemma {:induction false} InsertByTotalMembers(p: ProviderStats, s: seq<ProviderStats>)
    ensures forall x :: x in InsertByTotal(p, s) <==> x == p || x in s
  {
    var r := InsertByTotal(p, s);
    forall x ensures x in r <==> x == p || x in s {
      assert x in r <==> x in multiset(r);
      assert x in s <==> x in multiset(s);
    }
  }

  lemma {:induction false} InsertKeepsDistinctKeys(p: ProviderStats, s: seq<ProviderStats>)
    requires DistinctKeys(s)
    requires forall x :: x in s ==> StatsKey(x) != StatsKey(p)
    ensures DistinctKeys(InsertByTotal(p, s))
  {
    if s == [] || p.totalOperations >= s[0].totalOperations {
      assert forall k :: 0 <= k < |s| ==> s[k] in s;
    } else {
      var rest := InsertByTotal(p, s[1..]);
      assert forall x :: x in s[1..] ==> x in s;
      InsertKeepsDistinctKeys(p, s[1..]);
      InsertByTotalMembers(p, s[1..]);
      forall k | 0 <= k < |rest|
        ensures StatsKey(s[0]) != StatsKey(rest[k])
      {
        assert rest[k] in rest;
        if rest[k] != p {
          var j :| 0 <= j < |s[1..]| && s[1..][j] == rest[k];
          assert s[j + 1] == rest[k];
        }
      }
    }
  }

  lemma {:induction false} SortKeepsDistinctKeys(s: seq<ProviderStats>)
    requires DistinctKeys(s)
    ensures DistinctKeys(SortByTotal(s))
  {
    if s != [] {
      SortKeepsDistinctKeys(s[1..]);
      var rest := SortByTotal(s[1..]);
      forall x | x in rest
        ensures StatsKey(x) != StatsKey(s[0])
      {
        assert x in multiset(s[1..]);
        var j :| 0 <= j < |s[1..]| && s[1..][j] == x;
        assert s[j + 1] == x;
      }
      InsertKeepsDistinctKeys(s[0], rest);
    }
  }

  lemma {:induction false} SortByTotalMembers(s: seq<ProviderStats>)
    ensures forall x :: x in SortByTotal(s) <==> x in s
  {
    var r := SortByTotal(s);
    forall x ensures x in r <==> x in s {
      assert x in r <==> x in multiset(r);
      assert x in s <==> x in multiset(s);
    }
  }

  /** The list a non-empty computation publishes. */
  function Published(q: seq<StoredEvent>): seq<ProviderStats> {
    SortByTotal(Entries(q, GroupKeys(q)))
  }

  lemma {:induction false} PublishedKeys(q: seq<StoredEvent>)
    ensures forall k :: k in KeySet(Published(q)) <==> CountKey(q, k) > 0
    ensures DistinctKeys(Published(q))
  {
    var ks := GroupKeys(q);
    var es := Entries(q, ks);
    SortKeepsDistinctKeys(es);
    SortByTotalMembers(es);
    forall k ensures k in KeySet(Published(q)) <==> CountKey(q, k) > 0 {
      if CountKey(q, k) > 0 {
        var j :| 0 <= j < |ks| && ks[j] == k;
        assert es[j] in Published(q);
      }
      if k in KeySet(Published(q)) {
        var p :| p in Published(q) && StatsKey(p) == k;
        var j :| 0 <= j < |es| && es[j] == p;
        assert ks[j] == k;
      }
    }
  }

  /** One entry per (host, provider type) pair among the qualifying events, and no two
      entries for the same pair. */
  lemma OneEntryPerProviderKey(events: seq<StoredEvent>, now: int, calculatedAt: int)
    ensures var q := QualifyingEvents(events, now);
      var ps := CalculateStats(events, now, calculatedAt).providers;
      && (forall k :: k in KeySet(ps) <==> CountKey(q, k) > 0)
      && DistinctKeys(ps)
  {
    var q := QualifyingEvents(events, now);
    if |q| == 0 {
      forall k ensures CountKey(q, k) == 0 {
        assert k !in GroupKeys(q);
      }
    } else {
      PublishedKeys(q);
    }
  }

  /** Every qualifying event has one operation type, so a group's size is the sum of its
      per-operation counts. */
  lemma {:induction false} KeyCountIsSumOfOperationCounts(q: seq<StoredEvent>, k: ProviderKey)
    requires forall e :: e in q ==> e.operationType.Some?
    ensures CountKey(q, k) == SumCounts(OperationCounts(q, k))
  {
    if q != [] {
      var init, last := q[..|q| - 1], q[|q| - 1];
      assert forall e :: e in init ==> e in q;
      KeyCountIsSumOfOperationCounts(init, k);
      var m, m' := OperationCounts(init, k), OperationCounts(q, k);
      assert last in q;
      var hit := if KeyOf(last) == k then 1 else 0;
      forall op ensures CountIn(m', op) == CountIn(m, op) + (if last.operationType == Some(op) then hit else 0) {
      }
      match last.operationType.value
      case STAT =>
      case HEAD =>
      case BODY =>
      case ARTICLE =>
      case DATE =>
    }
  }

  /** Every entry counts its own pair exactly: per operation type, and in total; and its
      total is the sum of its per-operation counts. */
  lemma EntryCountsAreExact(events: seq<StoredEvent>, now: int, calculatedAt: int)
    ensures var q := QualifyingEvents(events, now);
      var ps := CalculateStats(events, now, calculatedAt).providers;
      forall p :: p in ps ==>
        && p.totalOperations == CountKey(q, StatsKey(p))
        && p.totalOperations == SumCounts(p.operationCounts)
        && (forall op :: op in p.operationCounts <==> CountKeyOp(q, StatsKey(p), op) > 0)
        && (forall op :: op in p.operationCounts ==> p.operationCounts[op] == CountKeyOp(q, StatsKey(p), op))
  {
    var q := QualifyingEvents(events, now);
    var ps := CalculateStats(events, now, calculatedAt).providers;
    if |q| > 0 {
      var es := Entries(q, GroupKeys(q));
      SortByTotalMembers(es);
      forall p | p in ps
        ensures p == Entry(q, StatsKey(p))
        ensures p.totalOperations == SumCounts(p.operationCounts)
      {
        var j :| 0 <= j < |es| && es[j] == p;
        KeyCountIsSumOfOperationCounts(q, StatsKey(p));
      }
    }
  }

  /** Non-increasing in total operations. */
  predicate SortedByTotal(s: seq<ProviderStats>) {
    forall a, b :: 0 <= a < b < |s| ==> s[a].totalOperations >= s[b].totalOperations
  }

  lemma {:induction false} InsertByTotalSorted(p: ProviderStats, s: seq<ProviderStats>)
    requires SortedByTotal(s)
    ensures SortedByTotal(InsertByTotal(p, s))
  {
    if !(s == [] || p.totalOperations >= s[0].totalOperations) {
      InsertByTotalSorted(p, s[1..]);
      InsertByTotalMembers(p, s[1..]);
      var rest := InsertByTotal(p, s[1..]);
      forall k | 0 <= k < |rest|
        ensures s[0].totalOperations >= rest[k].totalOperations
      {
        assert rest[k] in rest;
      }
    }
  }

  lemma {:induction false} SortByTotalSorted(s: seq<ProviderStats>)
    ensures SortedByTotal(SortByTotal(s))
  {
    if s != [] {
      SortByTotalSorted(s[1..]);
      InsertByTotalSorted(s[0], SortByTotal(s[1..]));
    }
  }

  /** The provider list is non-increasing in total operations. */
  lemma ProvidersSortedByTotal(events: seq<StoredEvent>, now: int, calculatedAt: int)
    ensures SortedByTotal(CalculateStats(events, now, calculatedAt).providers)
  {
    var q := QualifyingEvents(events, now);
    if |q| > 0 {
      SortByTotalSorted(Entries(q, GroupKeys(q)));
    }
  }
}
