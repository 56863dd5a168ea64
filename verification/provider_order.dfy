/** The provider order the failover loop walks: drop disabled providers, then sort
    ascending by tier and, within a tier, descending by available connections.
    The sort is stable, so providers with equal keys keep their configured order. */
module ProviderOrder {
  import opened UsenetTypes

  predicate IsActive(p: ProviderClient) {
    p.providerType != Disabled
  }

  /** The first sort key. Disabled providers are filtered out before any comparison,
      so the value given to them is never looked at. */
  function Tier(t: ProviderType): nat {
    match t
    case Disabled => 0
    case Active(rank) => rank
  }

  /** A provider that survived the filter: its index in the configured list and its
      two sort keys, with the availability gauge as read at call time. */
  datatype Candidate = Candidate(index: nat, tier: nat, available: nat)

  /** `a` may be placed before `b` by OrderBy(tier).ThenByDescending(available). */
  predicate Before(a: Candidate, b: Candidate) {
    a.tier < b.tier || (a.tier == b.tier && a.available >= b.available)
  }

  /** The strict order a stable sort produces: by tier, then by descending
      availability, and full ties in configured order. */
  predicate Ahead(a: Candidate, b: Candidate) {
    || a.tier < b.tier
    || (a.tier == b.tier && a.available > b.available)
    || (a.tier == b.tier && a.available == b.available && a.index < b.index)
  }

  predicate SortedAhead(s: seq<Candidate>) {
    forall a, b :: 0 <= a < b < |s| ==> Ahead(s[a], s[b])
  }

  predicate IncreasingIndices(s: seq<Candidate>) {
    forall a, b :: 0 <= a < b < |s| ==> s[a].index < s[b].index
  }

  /** `c` is the candidate of an active provider, with that provider's keys. */
  predicate Describes(ps: seq<ProviderClient>, available: seq<nat>, c: Candidate) {
    && c.index < |ps|
    && c.index < |available|
    && IsActive(ps[c.index])
    && c.tier == Tier(ps[c.index].providerType)
    && c.available == available[c.index]
  }

  /** The Where step: the active providers at index `from` or later, in configured order. */
  function Candidates(ps: seq<ProviderClient>, available: seq<nat>, from: nat): (cs: seq<Candidate>)
    requires |available| == |ps|
    decreases |ps| - from
    ensures forall c :: c in cs <==> Describes(ps, available, c) && from <= c.index
    ensures forall k :: 0 <= k < |cs| ==> from <= cs[k].index
    ensures IncreasingIndices(cs)
  {
    if from >= |ps| then []
    else if IsActive(ps[from]) then
      [Candidate(from, Tier(ps[from].providerType), available[from])] + Candidates(ps, available, from + 1)
    else
      Candidates(ps, available, from + 1)
  }

  /** Places `c` before the first element it may precede. */
  function Insert(c: Candidate, s: seq<Candidate>): (r: seq<Candidate>)
    ensures multiset(r) == multiset(s) + multiset{c}
    ensures |r| == |s| + 1
  {
    if s == [] || Before(c, s[0]) then [c] + s
    else
      assert s == [s[0]] + s[1..];
      [s[0]] + Insert(c, s[1..])
  }

  /** Insertion sort: the OrderBy/ThenByDescending step. */
  function SortCandidates(s: seq<Candidate>): (r: seq<Candidate>)
    ensures multiset(r) == multiset(s)
    ensures |r| == |s|
  {
    if s == [] then []
    else
      assert s == [s[0]] + s[1..];
      Insert(s[0], SortCandidates(s[1..]))
  }

  /** The ordered list of providers to try, as indices into `ps`; `available[i]` is
      the available-connections gauge of provider i when the call starts. */
  function GetOrderedProviders(ps: seq<ProviderClient>, available: seq<nat>): (order: seq<nat>)
    requires |available| == |ps|
    ensures forall k :: 0 <= k < |order| ==> order[k] < |ps| && IsActive(ps[order[k]])
  {
    var cs := Candidates(ps, available, 0);
    SortKeepsMembers(cs);
    var sorted := SortCandidates(cs);
    seq(|sorted|, k requires 0 <= k < |sorted| => sorted[k].index)
  }

  /** Every sorted candidate was a candidate before sorting. */
  lemma SortKeepsMembers(s: seq<Candidate>)
    ensures forall k :: 0 <= k < |SortCandidates(s)| ==> SortCandidates(s)[k] in s
  {
    var sorted := SortCandidates(s);
    forall k | 0 <= k < |sorted|
      ensures sorted[k] in s
    {
      assert sorted[k] in multiset(sorted);
    }
  }

  /** The ordered providers themselves. */
  function OrderedClients(ps: seq<ProviderClient>, order: seq<nat>): (r: seq<ProviderClient>)
    requires forall k :: 0 <= k < |order| ==> order[k] < |ps|
    ensures |r| == |order|
    ensures forall k :: 0 <= k < |order| ==> r[k] == ps[order[k]]
  {
    seq(|order|, k requires 0 <= k < |order| => ps[order[k]])
  }

  lemma {:induction false} InsertKeepsSorted(c: Candidate, s: seq<Candidate>)
    requires SortedAhead(s)
    requires forall x :: x in s ==> c.index < x.index
    ensures SortedAhead(Insert(c, s))
  {
    if s == [] || Before(c, s[0]) {
    } else {
      var rest := Insert(c, s[1..]);
      InsertKeepsSorted(c, s[1..]);
      assert Ahead(s[0], c);
      forall k | 0 <= k < |rest|
        ensures Ahead(s[0], rest[k])
      {
        assert rest[k] in multiset(rest);
      }
    }
  }

  lemma {:induction false} SortIsSorted(s: seq<Candidate>)
    requires IncreasingIndices(s)
    ensures SortedAhead(SortCandidates(s))
  {
    if s != [] {
      SortIsSorted(s[1..]);
      var rest := SortCandidates(s[1..]);
      forall x | x in rest
        ensures s[0].index < x.index
      {
        assert x in multiset(s[1..]);
      }
      InsertKeepsSorted(s[0], rest);
    }
  }

  /** The candidate of provider i: its index and its two keys. */
  function CandidateOf(ps: seq<ProviderClient>, available: seq<nat>, i: nat): Candidate
    requires i < |ps| == |available|
  {
    Candidate(i, Tier(ps[i].providerType), available[i])
  }

  /** The ordered indices, read back as candidates, are sorted by `Ahead`. */
  lemma {:induction false} OrderedCandidatesSorted(ps: seq<ProviderClient>, available: seq<nat>)
    requires |available| == |ps|
    ensures var order := GetOrderedProviders(ps, available);
      forall a, b :: 0 <= a < b < |order| ==> Ahead(CandidateOf(ps, available, order[a]), CandidateOf(ps, available, order[b]))
  {
    var cs := Candidates(ps, available, 0);
    var sorted := SortCandidates(cs);
    var order := GetOrderedProviders(ps, available);
    SortIsSorted(cs);
    forall k | 0 <= k < |sorted|
      ensures sorted[k] == CandidateOf(ps, available, order[k])
    {
      assert sorted[k] in multiset(cs);
      assert Describes(ps, available, sorted[k]);
    }
    forall a, b | 0 <= a < b < |order|
      ensures Ahead(CandidateOf(ps, available, order[a]), CandidateOf(ps, available, order[b]))
    {
      assert Ahead(sorted[a], sorted[b]);
    }
  }

  /** The ordered list holds every active provider, each exactly once, and nothing else. */
  lemma OrderedIsActivePermutation(ps: seq<ProviderClient>, available: seq<nat>)
    requires |available| == |ps|
    ensures var order := GetOrderedProviders(ps, available);
      && (forall i: nat :: i in order <==> i < |ps| && IsActive(ps[i]))
      && (forall a, b :: 0 <= a < b < |order| ==> order[a] != order[b])
  {
    var cs := Candidates(ps, available, 0);
    var sorted := SortCandidates(cs);
    var order := GetOrderedProviders(ps, available);
    OrderedCandidatesSorted(ps, available);
    forall a, b | 0 <= a < b < |order|
      ensures order[a] != order[b]
    {
      assert Ahead(CandidateOf(ps, available, order[a]), CandidateOf(ps, available, order[b]));
    }
    forall i: nat | i < |ps| && IsActive(ps[i])
      ensures i in order
    {
      var c := CandidateOf(ps, available, i);
      assert c in cs;
      assert c in multiset(sorted);
      var k :| 0 <= k < |sorted| && sorted[k] == c;
      assert order[k] == i;
    }
  }

  /** The ordered list is non-decreasing in tier; within a tier it is non-increasing in
      available connections; and providers with equal keys keep their configured order. */
  lemma OrderedIsSortedAndStable(ps: seq<ProviderClient>, available: seq<nat>)
    requires |available| == |ps|
    ensures var order := GetOrderedProviders(ps, available);
      forall a, b :: 0 <= a < b < |order| ==>
        var p, q := ps[order[a]], ps[order[b]];
        && Tier(p.providerType) <= Tier(q.providerType)
        && (p.providerType == q.providerType ==> available[order[a]] >= available[order[b]])
        && (p.providerType == q.providerType && available[order[a]] == available[order[b]] ==> order[a] < order[b])
  {
    var order := GetOrderedProviders(ps, available);
    OrderedCandidatesSorted(ps, available);
    forall a, b | 0 <= a < b < |order|
      ensures Tier(ps[order[a]].providerType) <= Tier(ps[order[b]].providerType)
      ensures ps[order[a]].providerType == ps[order[b]].providerType ==> available[order[a]] >= available[order[b]]
      ensures ps[order[a]].providerType == ps[order[b]].providerType && available[order[a]] == available[order[b]] ==> order[a] < order[b]
    {
      assert Ahead(CandidateOf(ps, available, order[a]), CandidateOf(ps, available, order[b]));
    }
  }
}
