/**
 Consolidating stranded stake: when no channel can afford a ticket, which of them give up theirs, and why
 no other choice would leave more channels usable.
 */
module Consolidation {
  import opened Common

  /** An open, under-funded channel; the lowest-ranked peers are closed first. */
  datatype Candidate = Candidate(id: ChannelId, balance: nat, rank: real)

  // ---------------------------------------------------------------------------------------------
  // The decision
  // ---------------------------------------------------------------------------------------------

  /** The stake held by all of `cs`. */
  function Stake(cs: seq<Candidate>): nat {
    if cs == [] then 0 else cs[0].balance + Stake(cs[1..])
  }

  /** How many channels the pooled stake can hold at face value. */
  function Achievable(cs: seq<Candidate>, safe: nat, reclaiming: nat, face: nat): nat
    requires face > 0
  {
    (safe + reclaiming + Stake(cs)) / face
  }

  const RANK: Candidate -> real := (c: Candidate) => c.rank

  function Ids(cs: seq<Candidate>): (r: seq<ChannelId>)
    ensures |r| == |cs|
  {
    if cs == [] then [] else [cs[0].id] + Ids(cs[1..])
  }

  lemma {:induction false} IdAt(cs: seq<Candidate>, i: nat)
    requires i < |cs|
    ensures Ids(cs)[i] == cs[i].id
  {
    if i > 0 {
      IdAt(cs[1..], i - 1);
    }
  }

  lemma IdsAt(cs: seq<Candidate>)
    ensures forall i :: 0 <= i < |cs| ==> Ids(cs)[i] == cs[i].id
  {
    forall i | 0 <= i < |cs| ensures Ids(cs)[i] == cs[i].id {
      IdAt(cs, i);
    }
  }

  function ConsolidationCloses(underfunded: seq<Candidate>, safe: nat, reclaiming: nat, face: nat): seq<ChannelId> {
    if face == 0 || underfunded == [] then []
    else
      var achievable := Achievable(underfunded, safe, reclaiming, face);
      if achievable == 0 || achievable >= |underfunded| then []
      else
        var closeCount := |underfunded| - achievable;
        Ids(StableSort(underfunded, RANK)[..closeCount])
  }

  // ---------------------------------------------------------------------------------------------
  // What a decision costs and frees
  // ---------------------------------------------------------------------------------------------

  ghost predicate DistinctIds(cs: seq<Candidate>) {
    forall i, j :: 0 <= i < j < |cs| ==> cs[i].id != cs[j].id
  }

  ghost predicate AllBelow(cs: seq<Candidate>, face: nat) {
    forall c :: c in cs ==> c.balance < face
  }

  function InSet(ids: set<ChannelId>): Candidate -> bool { (c: Candidate) => c.id in ids }

  function NotInSet(ids: set<ChannelId>): Candidate -> bool { (c: Candidate) => c.id !in ids }

  function WithId(id: ChannelId): Candidate -> bool { (c: Candidate) => c.id == id }

  /** The candidates of `cs` named by `ids`. */
  function Named(cs: seq<Candidate>, ids: set<ChannelId>): seq<Candidate> {
    Filter(cs, InSet(ids))
  }

  /** The candidates of `cs` not named by `ids`. */
  function Others(cs: seq<Candidate>, ids: set<ChannelId>): seq<Candidate> {
    Filter(cs, NotInSet(ids))
  }

  /** What raising every one of `cs` to exactly `face` costs. */
  function CostToFace(cs: seq<Candidate>, face: nat): nat
    requires AllBelow(cs, face)
  {
    if cs == [] then 0 else (face - cs[0].balance) + CostToFace(cs[1..], face)
  }

  /** Keeping exactly the channels in `kept` and closing the rest pays for itself. */
  ghost predicate Sustainable(cs: seq<Candidate>, kept: set<ChannelId>, safe: nat, reclaiming: nat, face: nat)
    requires AllBelow(cs, face)
  {
    CostToFace(Named(cs, kept), face) <= safe + reclaiming + Stake(Others(cs, kept))
  }

  lemma {:induction false} StakeSplits(cs: seq<Candidate>, ids: set<ChannelId>)
    ensures Stake(cs) == Stake(Named(cs, ids)) + Stake(Others(cs, ids))
    ensures |cs| == |Named(cs, ids)| + |Others(cs, ids)|
  {
    if cs != [] {
      StakeSplits(cs[1..], ids);
      var n, o := Named(cs[1..], ids), Others(cs[1..], ids);
      assert ([cs[0]] + n)[1..] == n && ([cs[0]] + o)[1..] == o;
    }
  }

  lemma {:induction false} CostIsMissingStake(cs: seq<Candidate>, face: nat)
    requires AllBelow(cs, face)
    ensures CostToFace(cs, face) + Stake(cs) == |cs| * face
  {
    if cs != [] {
      CostIsMissingStake(cs[1..], face);
    }
  }

  lemma QuotientBound(count: nat, pool: nat, face: nat)
    requires face > 0
    ensures count * face <= pool <==> count <= pool / face
  {
    var q, r := pool / face, pool % face;
    assert pool == q * face + r && r < face;
    if count <= q {
      assert count * face <= q * face;
    } else {
      assert count * face >= (q + 1) * face == q * face + face;
    }
  }

  /** A set of survivors pays for itself exactly when it has at most `Achievable` members,
      whichever channels they are. */
  lemma SustainableIffFewEnough(cs: seq<Candidate>, kept: set<ChannelId>, safe: nat, reclaiming: nat, face: nat)
    requires face > 0 && AllBelow(cs, face)
    ensures Sustainable(cs, kept, safe, reclaiming, face)
       <==> |Named(cs, kept)| <= Achievable(cs, safe, reclaiming, face)
  {
    StakeSplits(cs, kept);
    CostIsMissingStake(Named(cs, kept), face);
    QuotientBound(|Named(cs, kept)|, safe + reclaiming + Stake(cs), face);
  }

  ghost function IdSet(ids: seq<ChannelId>): set<ChannelId> {
    set id | id in ids
  }

  lemma {:induction false} FilterNone(s: seq<Candidate>, keep: Candidate -> bool)
    requires forall c :: c in s ==> !keep(c)
    ensures Filter(s, keep) == []
  {
    if s != [] {
      FilterNone(s[1..], keep);
    }
  }

  lemma {:induction false} FilterAgrees(s: seq<Candidate>, p: Candidate -> bool, q: Candidate -> bool)
    requires forall c :: c in s ==> p(c) == q(c)
    ensures Filter(s, p) == Filter(s, q)
  {
    if s != [] {
      FilterAgrees(s[1..], p, q);
    }
  }

  lemma NamedOnce(cs: seq<Candidate>, id: ChannelId)
    requires DistinctIds(cs)
    ensures |Filter(cs, WithId(id))| <= 1
  {
    var twin := WithId(id);
    if cs != [] {
      var rest := cs[1..];
      assert forall i :: 0 <= i < |rest| ==> rest[i] == cs[i + 1];
      NamedOnce(rest, id);
      if twin(cs[0]) {
        forall c | c in rest ensures !twin(c) {
          var k :| 0 <= k < |rest| && rest[k] == c;
          assert cs[0].id != cs[k + 1].id;
        }
        FilterNone(rest, twin);
      }
    }
  }

  lemma OnceMeansDistinct(s: seq<Candidate>, i: nat, j: nat)
    requires i < j < |s|
    requires |Filter(s, WithId(s[i].id))| <= 1
    ensures s[i].id != s[j].id
  {
    var twin := WithId(s[i].id);
    assert s == s[..j] + s[j..];
    FilterAppend(s[..j], s[j..], twin);
    assert s[..j][i] == s[i];
    assert s[i] in Filter(s[..j], twin);
    assert Filter(s[j..], twin) == [];
    assert s[j..][0] == s[j];
    assert s[j] !in Filter(s[j..], twin);
  }

  lemma SortedIdsDistinct(cs: seq<Candidate>)
    requires DistinctIds(cs)
    ensures DistinctIds(StableSort(cs, RANK))
  {
    var s := StableSort(cs, RANK);
    forall i, j | 0 <= i < j < |s| ensures s[i].id != s[j].id {
      var twin := WithId(s[i].id);
      SortFilter(cs, RANK, twin);
      NamedOnce(cs, s[i].id);
      OnceMeansDistinct(s, i, j);
    }
  }

  /** Removing a prefix by the ids of its members leaves the tail. */
  lemma PrefixSplits(s: seq<Candidate>, m: nat)
    requires m <= |s| && DistinctIds(s)
    ensures Named(s, IdSet(Ids(s[..m]))) == s[..m]
    ensures Others(s, IdSet(Ids(s[..m]))) == s[m..]
  {
    var gone := IdSet(Ids(s[..m]));
    var isIn, isOut := InSet(gone), NotInSet(gone);
    IdsAt(s[..m]);
    forall c | c in s[..m] ensures c.id in gone {
      var i :| 0 <= i < m && s[..m][i] == c;
      assert Ids(s[..m])[i] == c.id;
    }
    forall c | c in s[m..] ensures c.id !in gone {
      var j :| 0 <= j < |s[m..]| && s[m..][j] == c;
      forall i | 0 <= i < m ensures Ids(s[..m])[i] != c.id {
        assert s[i].id != s[m + j].id;
      }
    }
    assert s == s[..m] + s[m..];
    FilterAppend(s[..m], s[m..], isIn);
    FilterAppend(s[..m], s[m..], isOut);
    FilterAll(s[..m], isIn);
    FilterAll(s[m..], isOut);
    FilterNone(s[m..], isIn);
    FilterNone(s[..m], isOut);
  }

  /** Naming candidates before sorting or after sorting selects the same ranking. */
  lemma SortSplits(cs: seq<Candidate>, ids: set<ChannelId>)
    ensures Named(StableSort(cs, RANK), ids) == StableSort(Named(cs, ids), RANK)
    ensures Others(StableSort(cs, RANK), ids) == StableSort(Others(cs, ids), RANK)
  {
    SortFilter(cs, RANK, InSet(ids));
    SortFilter(cs, RANK, NotInSet(ids));
  }

  /** Closing a prefix of the ranking: how many channels go, how many stay. */
  lemma ClosingAPrefix(cs: seq<Candidate>, m: nat)
    requires m <= |cs| && DistinctIds(cs)
    ensures var gone := IdSet(Ids(StableSort(cs, RANK)[..m]));
            |Named(cs, gone)| == m && |Others(cs, gone)| == |cs| - m
  {
    var s := StableSort(cs, RANK);
    SortedIdsDistinct(cs);
    PrefixSplits(s, m);
    SortSplits(cs, IdSet(Ids(s[..m])));
  }

  // ---------------------------------------------------------------------------------------------
  // The decision is optimal
  // ---------------------------------------------------------------------------------------------

  /** A non-empty answer keeps a set of channels that pays for itself, and no set of channels that
      pays for itself is larger. */
  lemma ClosesAreOptimal(cs: seq<Candidate>, safe: nat, reclaiming: nat, face: nat)
    requires DistinctIds(cs) && AllBelow(cs, face)
    requires ConsolidationCloses(cs, safe, reclaiming, face) != []
    ensures var gone := IdSet(ConsolidationCloses(cs, safe, reclaiming, face));
            var kept := Others(cs, gone);
            && |Named(cs, gone)| == |ConsolidationCloses(cs, safe, reclaiming, face)|
            && |kept| == Achievable(cs, safe, reclaiming, face)
            && CostToFace(kept, face) <= safe + reclaiming + Stake(Named(cs, gone))
            && forall other: set<ChannelId> :: Sustainable(cs, other, safe, reclaiming, face) ==>
                 |Named(cs, other)| <= |kept|
  {
    hide Insert, Filter, StableSort, Stake, CostToFace;
    var closes := ConsolidationCloses(cs, safe, reclaiming, face);
    var gone := IdSet(closes);
    var kept := Others(cs, gone);
    ClosingAPrefix(cs, |closes|);
    assert |kept| == Achievable(cs, safe, reclaiming, face);
    KeptPaysForItself(cs, gone, safe, reclaiming, face);
    forall other: set<ChannelId> | Sustainable(cs, other, safe, reclaiming, face)
      ensures |Named(cs, other)| <= |kept|
    {
      SustainableIffFewEnough(cs, other, safe, reclaiming, face);
    }
  }

  lemma KeptPaysForItself(cs: seq<Candidate>, gone: set<ChannelId>, safe: nat, reclaiming: nat, face: nat)
    requires face > 0 && AllBelow(cs, face)
    ensures CostToFace(Others(cs, gone), face) <= safe + reclaiming + Stake(Named(cs, gone))
       <==> |Others(cs, gone)| <= Achievable(cs, safe, reclaiming, face)
  {
    StakeSplits(cs, gone);
    CostIsMissingStake(Others(cs, gone), face);
    QuotientBound(|Others(cs, gone)|, safe + reclaiming + Stake(cs), face);
  }

  /** Where a candidate stands in the ranking is where it stands among the closures, if it is one. */
  lemma PlaceInRanking(cs: seq<Candidate>, safe: nat, reclaiming: nat, face: nat, a: Candidate) returns (k: nat)
    requires DistinctIds(cs) && a in cs
    ensures var s, closes := StableSort(cs, RANK), ConsolidationCloses(cs, safe, reclaiming, face);
            && k < |s| && s[k] == a && |closes| <= |s| && (k < |closes| ==> closes[k] == a.id)
            && forall t :: 0 <= t < |closes| && closes[t] == a.id ==> t == k
  {
    hide Insert, Filter, Achievable;
    var closes := ConsolidationCloses(cs, safe, reclaiming, face);
    var s := StableSort(cs, RANK);
    StableSortSorts(cs, RANK);
    SortedIdsDistinct(cs);
    IdsAt(s[..|closes|]);
    assert forall t :: 0 <= t < |closes| ==> closes[t] == s[t].id;
    hide StableSort;
    k :| k < |s| && s[k] == a;
  }

  /** No closed channel outranks a kept one, and closures are listed worst-ranked first. */
  lemma ClosesTheWorstRanked(cs: seq<Candidate>, safe: nat, reclaiming: nat, face: nat, a: Candidate, b: Candidate)
    requires DistinctIds(cs) && a in cs && b in cs
    requires var closes := ConsolidationCloses(cs, safe, reclaiming, face);
             || (a.id in closes && b.id !in closes)
             || (exists i, j :: 0 <= i < j < |closes| && closes[i] == a.id && closes[j] == b.id)
    ensures a.rank <= b.rank
  {
    var s, closes := StableSort(cs, RANK), ConsolidationCloses(cs, safe, reclaiming, face);
    StableSortSorts(cs, RANK);
    var ia := PlaceInRanking(cs, safe, reclaiming, face, a);
    var ib := PlaceInRanking(cs, safe, reclaiming, face, b);
    hide StableSort, ConsolidationCloses;
    assert ia < ib;
    assert RANK(s[ia]) <= RANK(s[ib]);
  }

  /** Nothing is closed exactly when there is no face value to size against, when not a single
      channel could be sustained, or when all of them can be sustained as they are. */
  lemma ClosesNothingExactlyWhen(cs: seq<Candidate>, safe: nat, reclaiming: nat, face: nat)
    requires DistinctIds(cs) && (face > 0 ==> AllBelow(cs, face))
    ensures ConsolidationCloses(cs, safe, reclaiming, face) == [] <==>
              || face == 0
              || (forall kept: set<ChannelId> ::
                    Sustainable(cs, kept, safe, reclaiming, face) ==> Named(cs, kept) == [])
              || CostToFace(cs, face) <= safe + reclaiming
  {
    hide Insert, Filter, StableSort, Stake;
    if face > 0 {
      CostIsMissingStake(cs, face);
      QuotientBound(|cs|, safe + reclaiming + Stake(cs), face);
      if Achievable(cs, safe, reclaiming, face) == 0 {
        forall kept: set<ChannelId> | Sustainable(cs, kept, safe, reclaiming, face) ensures Named(cs, kept) == [] {
          SustainableIffFewEnough(cs, kept, safe, reclaiming, face);
        }
      } else if cs != [] {
        var one := {cs[0].id};
        NamedOnce(cs, cs[0].id);
        FilterAgrees(cs, InSet(one), WithId(cs[0].id));
        SustainableIffFewEnough(cs, one, safe, reclaiming, face);
        assert cs[0] in Named(cs, one);
      }
    }
  }

  // ---------------------------------------------------------------------------------------------
  // The decision is stable across ticks
  // ---------------------------------------------------------------------------------------------

  /** What the decision reads, as it evolves while its closures are carried out. */
  datatype Standing = Standing(under: seq<Candidate>, safe: nat, reclaiming: nat)

  /** Something that happens between two decisions. */
  datatype Progress =
    | Dispatch(ids: set<ChannelId>)  // some of the returned closures start: their stake is in flight
    | Reclaim(amount: nat)           // stake in flight reaches the Safe
    | TopUp(id: ChannelId)           // a survivor is raised to face value from the Safe

  function Closes(p: Standing, face: nat): seq<ChannelId> {
    ConsolidationCloses(p.under, p.safe, p.reclaiming, face)
  }

  ghost predicate Sound(p: Standing, face: nat) {
    face > 0 && DistinctIds(p.under) && AllBelow(p.under, face)
  }

  ghost predicate Possible(p: Standing, e: Progress, face: nat)
    requires Sound(p, face)
  {
    match e
    case Dispatch(ids) => AllIn(ids, Closes(p, face))
    case Reclaim(amount) => amount <= p.reclaiming
    case TopUp(id) =>
      && id !in Closes(p, face) && |Named(p.under, {id})| == 1
      && CostToFace(Named(p.under, {id}), face) <= p.safe
  }

  ghost function Advance(p: Standing, e: Progress, face: nat): Standing
    requires Sound(p, face) && Possible(p, e, face)
  {
    match e
    case Dispatch(ids) => Standing(Others(p.under, ids), p.safe, p.reclaiming + Stake(Named(p.under, ids)))
    case Reclaim(amount) => Standing(p.under, p.safe + amount, p.reclaiming - amount)
    case TopUp(id) =>
      Standing(Others(p.under, {id}), p.safe - CostToFace(Named(p.under, {id}), face), p.reclaiming)
  }

  /** The ids of `closes` that have not been moved yet, in their order. */
  function Remaining(closes: seq<ChannelId>, moved: set<ChannelId>): seq<ChannelId> {
    Filter(closes, NotMoved(moved))
  }

  function NotMoved(moved: set<ChannelId>): ChannelId -> bool { (id: ChannelId) => id !in moved }

  lemma {:induction false} IdsOfOthers(s: seq<Candidate>, moved: set<ChannelId>)
    ensures Ids(Others(s, moved)) == Remaining(Ids(s), moved)
  {
    if s != [] {
      IdsOfOthers(s[1..], moved);
      assert Ids(s)[1..] == Ids(s[1..]);
      if s[0].id !in moved {
        assert Others(s, moved)[1..] == Others(s[1..], moved);
        assert Ids(Others(s, moved)) == [s[0].id] + Ids(Others(s[1..], moved));
      }
    }
  }

  lemma OthersDistinct(cs: seq<Candidate>, ids: set<ChannelId>)
    requires DistinctIds(cs)
    ensures DistinctIds(Others(cs, ids))
  {
    if cs != [] {
      var rest := cs[1..];
      assert forall i :: 0 <= i < |rest| ==> rest[i] == cs[i + 1];
      OthersDistinct(rest, ids);
      var r := Others(rest, ids);
      forall c | c in r ensures c.id != cs[0].id {
        assert c in rest;
        var k :| 0 <= k < |rest| && rest[k] == c;
        assert cs[0].id != cs[k + 1].id;
      }
      assert forall k :: 0 <= k < |r| ==> r[k] in r;
    }
  }

  lemma AdvanceStaysSound(p: Standing, e: Progress, face: nat)
    requires Sound(p, face) && Possible(p, e, face)
    ensures Sound(Advance(p, e, face), face)
  {
    match e
    case Dispatch(ids) => OthersDistinct(p.under, ids);
    case Reclaim(amount) =>
    case TopUp(id) => OthersDistinct(p.under, {id});
  }

  ghost predicate AllIn(ids: set<ChannelId>, closes: seq<ChannelId>) {
    forall id :: id in ids ==> id in closes
  }

  lemma RestOutsidePrefix(s: seq<Candidate>, m: nat, ids: set<ChannelId>)
    requires m <= |s| && DistinctIds(s) && AllIn(ids, Ids(s[..m]))
    ensures Others(s, ids) == Others(s[..m], ids) + s[m..]
    ensures |Named(s, ids)| == |Named(s[..m], ids)|
  {
    PrefixSplits(s, m);
    var gone := IdSet(Ids(s[..m]));
    forall c | c in s[m..] ensures c.id !in ids {
      assert c in Others(s, gone);
      assert NotInSet(gone)(c);
    }
    assert s == s[..m] + s[m..];
    FilterAppend(s[..m], s[m..], NotInSet(ids));
    FilterAppend(s[..m], s[m..], InSet(ids));
    FilterAll(s[m..], NotInSet(ids));
    FilterNone(s[m..], InSet(ids));
  }

  /** Taking ids out of the closed prefix shortens the prefix by exactly those ids. */
  lemma PrefixWithout(cs: seq<Candidate>, m: nat, ids: set<ChannelId>)
    requires m <= |cs| && DistinctIds(cs)
    requires AllIn(ids, Ids(StableSort(cs, RANK)[..m]))
    ensures |Named(cs, ids)| <= m && |Others(cs, ids)| == |cs| - |Named(cs, ids)|
    ensures Ids(StableSort(Others(cs, ids), RANK)[..m - |Named(cs, ids)|])
         == Remaining(Ids(StableSort(cs, RANK)[..m]), ids)
  {
    var s := StableSort(cs, RANK);
    SortedIdsDistinct(cs);
    SortSplits(cs, ids);
    StakeSplits(cs, ids);
    StakeSplits(s[..m], ids);
    RestOutsidePrefix(s, m, ids);
    var front := Others(s[..m], ids);
    assert (front + s[m..])[..|front|] == front;
    IdsOfOthers(s[..m], ids);
  }

  /** How many of `n` channels are closed when `k` can be held at face value. */
  function CloseCount(n: nat, k: nat): (m: nat)
    ensures m <= n
  {
    if k == 0 || k >= n then 0 else n - k
  }

  lemma ClosesByCount(cs: seq<Candidate>, safe: nat, reclaiming: nat, face: nat)
    requires face > 0
    ensures var m := CloseCount(|cs|, Achievable(cs, safe, reclaiming, face));
            ConsolidationCloses(cs, safe, reclaiming, face) == Ids(StableSort(cs, RANK)[..m])
  {}

  lemma DispatchRest(cs: seq<Candidate>, ids: set<ChannelId>, safe: nat, reclaiming: nat, face: nat)
    requires face > 0 && DistinctIds(cs)
    requires AllIn(ids, ConsolidationCloses(cs, safe, reclaiming, face))
    ensures ConsolidationCloses(Others(cs, ids), safe, reclaiming + Stake(Named(cs, ids)), face)
         == Remaining(ConsolidationCloses(cs, safe, reclaiming, face), ids)
  {
    hide *;
    var k := Achievable(cs, safe, reclaiming, face);
    assert ConsolidationCloses(cs, safe, reclaiming, face) == Ids(StableSort(cs, RANK)[..CloseCount(|cs|, k)]) by {
      ClosesByCount(cs, safe, reclaiming, face);
    }
    assert ConsolidationCloses(Others(cs, ids), safe, reclaiming + Stake(Named(cs, ids)), face)
        == Ids(StableSort(Others(cs, ids), RANK)[..CloseCount(|Others(cs, ids)|, k)]) by {
      SamePool(cs, ids, safe, reclaiming, face);
      ClosesByCount(Others(cs, ids), safe, reclaiming + Stake(Named(cs, ids)), face);
    }
    RestOfTheCount(cs, k, ids);
  }

  /** Carrying out any part of the decision leaves exactly the rest of it to be decided next;
      carrying out all of it leaves nothing. */
  lemma DispatchLeavesTheRest(p: Standing, ids: set<ChannelId>, face: nat)
    requires Sound(p, face) && Possible(p, Dispatch(ids), face)
    ensures Closes(Advance(p, Dispatch(ids), face), face) == Remaining(Closes(p, face), ids)
    ensures (forall id :: id in Closes(p, face) ==> id in ids) ==> Closes(Advance(p, Dispatch(ids), face), face) == []
  {
    hide ConsolidationCloses, Achievable;
    DispatchRest(p.under, ids, p.safe, p.reclaiming, face);
    if forall id :: id in Closes(p, face) ==> id in ids {
      RemainingNothing(Closes(p, face), ids);
    }
  }

  lemma {:induction false} RemainingNothing(closes: seq<ChannelId>, ids: set<ChannelId>)
    requires forall id :: id in closes ==> id in ids
    ensures Remaining(closes, ids) == []
  {
    if closes != [] {
      RemainingNothing(closes[1..], ids);
    }
  }

  lemma RestOfTheCount(cs: seq<Candidate>, k: nat, ids: set<ChannelId>)
    requires DistinctIds(cs)
    requires AllIn(ids, Ids(StableSort(cs, RANK)[..CloseCount(|cs|, k)]))
    ensures Ids(StableSort(Others(cs, ids), RANK)[..CloseCount(|Others(cs, ids)|, k)])
         == Remaining(Ids(StableSort(cs, RANK)[..CloseCount(|cs|, k)]), ids)
  {
    var m := CloseCount(|cs|, k);
    PrefixWithout(cs, m, ids);
    assert CloseCount(|Others(cs, ids)|, k) == m - |Named(cs, ids)|;
  }

  lemma SamePool(cs: seq<Candidate>, ids: set<ChannelId>, safe: nat, reclaiming: nat, face: nat)
    requires face > 0
    ensures Achievable(Others(cs, ids), safe, reclaiming + Stake(Named(cs, ids)), face)
         == Achievable(cs, safe, reclaiming, face)
  {
    StakeSplits(cs, ids);
  }

  lemma DropOneQuotient(pool: nat, face: nat)
    requires face > 0 && pool >= face
    ensures (pool - face) / face == pool / face - 1
  {
    var q, r := pool / face, pool % face;
    assert pool == q * face + r;
    QuotientBound(1, pool, face);
    QuotientBound(q - 1, pool - face, face);
    QuotientBound(q, pool - face, face);
    assert (q - 1) * face == q * face - face;
  }

  /** Raising one channel to face value takes one face value out of the pool. */
  lemma TopUpUsesOneFaceValue(cs: seq<Candidate>, id: ChannelId, safe: nat, reclaiming: nat, face: nat)
    requires face > 0 && AllBelow(cs, face) && |Named(cs, {id})| == 1
    requires CostToFace(Named(cs, {id}), face) <= safe
    ensures |Others(cs, {id})| == |cs| - 1
    ensures Achievable(cs, safe, reclaiming, face) >= 1
    ensures Achievable(Others(cs, {id}), safe - CostToFace(Named(cs, {id}), face), reclaiming, face)
         == Achievable(cs, safe, reclaiming, face) - 1
  {
    StakeSplits(cs, {id});
    CostIsMissingStake(Named(cs, {id}), face);
    var pool := safe + reclaiming + Stake(cs);
    DropOneQuotient(pool, face);
    QuotientBound(1, pool, face);
  }

  /** Raising a survivor to face value leaves the decision as it was, unless it was the last one. */
  lemma TopUpLeavesTheRest(p: Standing, id: ChannelId, face: nat)
    requires Sound(p, face) && Possible(p, TopUp(id), face)
    ensures Closes(Advance(p, TopUp(id), face), face)
         == if Achievable(p.under, p.safe, p.reclaiming, face) == 1 then [] else Closes(p, face)
  {
    hide Achievable, ConsolidationCloses, CostToFace, Ids, StableSort, Insert, Filter, DistinctIds;
    var safe := p.safe - CostToFace(Named(p.under, {id}), face);
    var m := CloseCount(|p.under|, Achievable(p.under, p.safe, p.reclaiming, face));
    ClosesByCount(p.under, p.safe, p.reclaiming, face);
    ClosesByCount(Others(p.under, {id}), safe, p.reclaiming, face);
    TopUpUsesOneFaceValue(p.under, id, p.safe, p.reclaiming, face);
    if Achievable(p.under, p.safe, p.reclaiming, face) > 1 {
      SurvivorLeaves(p.under, m, id);
    }
  }

  lemma KeepsUnnamedPrefix(s: seq<Candidate>, m: nat, id: ChannelId)
    requires m <= |s| && id !in Ids(s[..m])
    ensures m <= |Others(s, {id})| && Others(s, {id})[..m] == s[..m]
  {
    hide Filter;
    var keep := NotInSet({id});
    IdsAt(s[..m]);
    forall c | c in s[..m] ensures keep(c) {
      var i :| 0 <= i < m && s[..m][i] == c;
      assert Ids(s[..m])[i] == c.id;
    }
    FilterAll(s[..m], keep);
    FilterAppend(s[..m], s[m..], keep);
    assert s == s[..m] + s[m..];
  }

  lemma SurvivorLeaves(cs: seq<Candidate>, m: nat, id: ChannelId)
    requires m <= |cs| && id !in Ids(StableSort(cs, RANK)[..m])
    ensures m <= |Others(cs, {id})|
    ensures StableSort(Others(cs, {id}), RANK)[..m] == StableSort(cs, RANK)[..m]
  {
    SortSplits(cs, {id});
    KeepsUnnamedPrefix(StableSort(cs, RANK), m, id);
  }

  ghost predicate PossibleRun(p: Standing, run: seq<Progress>, face: nat)
    requires Sound(p, face)
    decreases |run|
  {
    run == []
    || (&& Possible(p, run[0], face)
        && Sound(Advance(p, run[0], face), face)
        && PossibleRun(Advance(p, run[0], face), run[1..], face))
  }

  ghost function AfterRun(p: Standing, run: seq<Progress>, face: nat): Standing
    requires Sound(p, face) && PossibleRun(p, run, face)
    decreases |run|
  {
    if run == [] then p else AfterRun(Advance(p, run[0], face), run[1..], face)
  }

  /** The ids whose closure a run has dispatched. */
  function Dispatched(run: seq<Progress>): set<ChannelId> {
    if run == [] then {}
    else (if run[0].Dispatch? then run[0].ids else {}) + Dispatched(run[1..])
  }

  lemma {:induction false} RemainingTwice(closes: seq<ChannelId>, a: set<ChannelId>, b: set<ChannelId>)
    ensures Remaining(Remaining(closes, a), b) == Remaining(closes, a + b)
  {
    if closes != [] {
      RemainingTwice(closes[1..], a, b);
      var r := Remaining(closes[1..], a);
      assert ([closes[0]] + r)[1..] == r;
    }
  }

  lemma ReclaimChangesNothing(p: Standing, amount: nat, face: nat)
    requires Sound(p, face) && amount <= p.reclaiming
    ensures Closes(Advance(p, Reclaim(amount), face), face) == Closes(p, face)
  {
    ClosesByCount(p.under, p.safe, p.reclaiming, face);
    ClosesByCount(p.under, p.safe + amount, p.reclaiming - amount, face);
    assert Achievable(p.under, p.safe + amount, p.reclaiming - amount, face)
        == Achievable(p.under, p.safe, p.reclaiming, face);
  }

  /** One step never widens the decision. */
  lemma StepNeverWidens(p: Standing, e: Progress, face: nat)
    requires Sound(p, face) && Possible(p, e, face)
    ensures Closes(Advance(p, e, face), face) == []
         || Closes(Advance(p, e, face), face) == Remaining(Closes(p, face), Dispatched([e]))
  {
    var closes := Closes(p, face);
    if e.Dispatch? {
      DispatchLeavesTheRest(p, e.ids, face);
      assert Dispatched([e]) == e.ids;
    } else {
      assert Dispatched([e]) == {};
      FilterAllIds(closes);
      if e.Reclaim? {
        ReclaimChangesNothing(p, e.amount, face);
      } else {
        TopUpLeavesTheRest(p, e.id, face);
      }
    }
  }

  /** Over any run of dispatches, returns of stake and top-ups, the pass never widens its decision:
      what it still wants closed is nothing, or exactly the part of the first decision not yet
      dispatched, in the same order. */
  lemma {:induction false} DecisionNeverWidens(p: Standing, run: seq<Progress>, face: nat)
    requires Sound(p, face) && PossibleRun(p, run, face)
    ensures var next := Closes(AfterRun(p, run, face), face);
            next == [] || next == Remaining(Closes(p, face), Dispatched(run))
    decreases |run|
  {
    hide ConsolidationCloses, Achievable;
    if run == [] {
      FilterAllIds(Closes(p, face));
    } else {
      var q := Advance(p, run[0], face);
      StepNeverWidens(p, run[0], face);
      AdvanceStaysSound(p, run[0], face);
      DecisionNeverWidens(q, run[1..], face);
      RemainingTwice(Closes(p, face), Dispatched([run[0]]), Dispatched(run[1..]));
      assert Dispatched([run[0]]) + Dispatched(run[1..]) == Dispatched(run);
    }
  }

  lemma FilterAllIds(closes: seq<ChannelId>)
    ensures Remaining(closes, {}) == closes
  {
    FilterAll(closes, NotMoved({}));
  }

  // ---------------------------------------------------------------------------------------------
  // The number of closures against the size of the pool
  // ---------------------------------------------------------------------------------------------

  /** A larger Safe balance never closes more exactly when the smaller pool already sustains one
      channel, or the larger one still sustains none, or the larger one sustains them all. */
  lemma LargerSafeClosesNoMoreExactlyWhen(cs: seq<Candidate>, safe: nat, more: nat, reclaiming: nat, face: nat)
    requires face > 0
    ensures |ConsolidationCloses(cs, safe + more, reclaiming, face)|
         <= |ConsolidationCloses(cs, safe, reclaiming, face)|
       <==> || Achievable(cs, safe, reclaiming, face) > 0
            || Achievable(cs, safe + more, reclaiming, face) == 0
            || Achievable(cs, safe + more, reclaiming, face) >= |cs|
  {
    var small, large := safe + reclaiming + Stake(cs), safe + more + reclaiming + Stake(cs);
    QuotientBound(small / face, small, face);
    QuotientBound(small / face, large, face);
  }

  /** Two channels of 5 against a face value of 15: an empty Safe closes none, a Safe of 5 closes one. */
  lemma LargerSafeMayCloseMore()
    ensures exists cs: seq<Candidate>, face: nat ::
              && DistinctIds(cs) && AllBelow(cs, face)
              && |ConsolidationCloses(cs, 0, 0, face)| < |ConsolidationCloses(cs, 5, 0, face)|
  {
    var cs := [Candidate(ChannelId(0), 5, 0.0), Candidate(ChannelId(1), 5, 1.0)];
    assert Stake(cs[1..]) == 5 && Stake(cs) == 10;
    assert Achievable(cs, 0, 0, 15) == 0;
    assert Achievable(cs, 5, 0, 15) == 1;
    assert DistinctIds(cs) && AllBelow(cs, 15);
    assert |ConsolidationCloses(cs, 5, 0, 15)| == 1;
  }
}
