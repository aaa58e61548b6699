/**
 The multi-objective selector: which peers to open channels to, in two tiers of two stages each, and
 which open channels to retire. Final scores are given per candidate and totally ordered.
 */
module Selector {
  import opened Common

  // ---------------------------------------------------------------------------------------------
  // Buckets and candidates
  // ---------------------------------------------------------------------------------------------

  datatype Latency = VeryFast | Fast | Medium | Slow | VerySlow

  function FromLatency(ms: Option<nat>): Latency {
    match ms
    case None => VerySlow
    case Some(n) =>
      if n <= 50 then VeryFast else if n <= 75 then Fast else if n <= 125 then Medium
      else if n <= 200 then Slow else VerySlow
  }

  datatype Subnet = Unknown | Prefix(n: nat)

  datatype Cell = Cell(latency: Latency, subnet: Subnet)

  /** The cells of the open channels whose peer could be resolved. */
  type BucketView = map<ChannelId, Cell>

  function CellCount(view: BucketView, cell: Cell): nat {
    |set id | id in view && view[id] == cell|
  }

  type OffchainKey = nat

  datatype OpenCandidate = OpenCandidate(addr: Address, key: OffchainKey, latencyMs: Option<nat>, subnet: Subnet,
                                         score: real)
  {
    function Bucket(): Cell { Cell(FromLatency(latencyMs), subnet) }

    predicate Known() { subnet != Unknown }
  }

  /** Two peers share a cell exactly when their subnets agree and no bound between latency bands, in milliseconds,
      separates them; a peer without a measured latency is among the slowest. */
  lemma SharesCellIff(a: OpenCandidate, b: OpenCandidate)
    ensures var slow := (c: OpenCandidate, bound: nat) => c.latencyMs.None? || c.latencyMs.value > bound;
            a.Bucket() == b.Bucket() <==>
              && a.subnet == b.subnet
              && slow(a, 50) == slow(b, 50) && slow(a, 75) == slow(b, 75)
              && slow(a, 125) == slow(b, 125) && slow(a, 200) == slow(b, 200)
  {}

  // ---------------------------------------------------------------------------------------------
  // Addresses of a list of candidates
  // ---------------------------------------------------------------------------------------------

  function Addrs(s: seq<OpenCandidate>): set<Address> { set c | c in s :: c.addr }

  ghost predicate Distinct(s: seq<OpenCandidate>) {
    forall i, j :: 0 <= i < j < |s| ==> s[i].addr != s[j].addr
  }

  lemma AddrsSnoc(front: seq<OpenCandidate>, last: OpenCandidate)
    ensures Addrs(front + [last]) == Addrs(front) + {last.addr}
    ensures Distinct(front + [last]) <==> Distinct(front) && last.addr !in Addrs(front)
  {
    var s := front + [last];
    assert forall i :: 0 <= i < |front| ==> s[i] == front[i];
    assert s[|front|] == last;
    if last.addr in Addrs(front) {
      var i :| 0 <= i < |front| && front[i].addr == last.addr;
      assert s[i].addr == s[|front|].addr;
    } else {
      assert forall i :: 0 <= i < |front| ==> front[i].addr in Addrs(front);
    }
  }

  lemma {:induction false} DistinctIffAsManyAddrs(s: seq<OpenCandidate>)
    ensures |Addrs(s)| <= |s|
    ensures Distinct(s) <==> |Addrs(s)| == |s|
  {
    if s != [] {
      var n := |s| - 1;
      DistinctIffAsManyAddrs(s[..n]);
      AddrsSnoc(s[..n], s[n]);
      assert s == s[..n] + [s[n]];
    }
  }

  lemma SortKeepsDistinct(s: seq<OpenCandidate>, key: OpenCandidate -> real)
    requires Distinct(s)
    ensures Distinct(StableSort(s, key)) && Addrs(StableSort(s, key)) == Addrs(s)
  {
    StableSortSorts(s, key);
    DistinctIffAsManyAddrs(s);
    DistinctIffAsManyAddrs(StableSort(s, key));
  }

  // ---------------------------------------------------------------------------------------------
  // The books kept while filling
  // ---------------------------------------------------------------------------------------------

  function Lookup(counts: map<Cell, nat>, cell: Cell): nat {
    if cell in counts then counts[cell] else 0
  }

  /** How many of `picks` landed in a known cell, counted afresh. */
  function Recount(picks: seq<OpenCandidate>, cell: Cell): nat {
    if picks == [] then 0
    else
      var last := picks[|picks| - 1];
      Recount(picks[..|picks| - 1], cell) + if last.Known() && last.Bucket() == cell then 1 else 0
  }

  lemma {:induction false} RecountByPlace(picks: seq<OpenCandidate>, cell: Cell, places: set<nat>)
    requires forall i: nat :: i in places <==>
               i < |picks| && picks[i].subnet != Unknown && picks[i].Bucket() == cell
    ensures Recount(picks, cell) == |places|
  {
    if picks == [] {
      assert places == {};
    } else {
      var n: nat := |picks| - 1;
      var front := places - {n};
      RecountByPlace(picks[..n], cell, front);
      assert places == front + if n in places then {n} else {};
    }
  }

  /** What the floor of a cell is compared with: how many open channels the view has in it, and how many picks of
      known subnets landed in it. */
  lemma CountsTheCell(view: BucketView, picks: seq<OpenCandidate>, cell: Cell, ids: set<ChannelId>, places: set<nat>)
    requires forall id :: id in ids <==> id in view && view[id] == cell
    requires forall i: nat :: i in places <==>
               i < |picks| && picks[i].subnet != Unknown && picks[i].Bucket() == cell
    ensures CellCount(view, cell) == |ids| && Recount(picks, cell) == |places|
  {
    assert ids == set id | id in view && view[id] == cell;
    RecountByPlace(picks, cell, places);
  }

  /** `picked` and `fillCounts` say about `result` what a recount would say. */
  ghost predicate Books(result: seq<OpenCandidate>, picked: set<Address>, fillCounts: map<Cell, nat>) {
    && Distinct(result)
    && picked == Addrs(result)
    && forall cell :: Lookup(fillCounts, cell) == Recount(result, cell)
  }

  lemma BooksAfterPick(result: seq<OpenCandidate>, picked: set<Address>, fillCounts: map<Cell, nat>, c: OpenCandidate)
    requires Books(result, picked, fillCounts) && c.addr !in picked
    ensures var counts := if !c.Known() then fillCounts
                          else fillCounts[c.Bucket() := Lookup(fillCounts, c.Bucket()) + 1];
            Books(result + [c], picked + {c.addr}, counts)
  {
    var next := result + [c];
    assert next[..|next| - 1] == result;
    assert forall i :: 0 <= i < |result| ==> result[i].addr in picked;
  }

  lemma BooksSay(result: seq<OpenCandidate>, picked: set<Address>, fillCounts: map<Cell, nat>, cell: Cell)
    requires Books(result, picked, fillCounts)
    ensures picked == Addrs(result) && Lookup(fillCounts, cell) == Recount(result, cell)
  {}

  lemma RecountGrows(picks: seq<OpenCandidate>, n: nat, cell: Cell)
    requires n <= |picks|
    ensures Recount(picks[..n], cell) <= Recount(picks, cell)
    decreases |picks|
  {
    if n < |picks| {
      var front := picks[..|picks| - 1];
      RecountGrows(front, n, cell);
      assert front[..n] == picks[..n];
    } else {
      assert picks[..n] == picks;
    }
  }

  // ---------------------------------------------------------------------------------------------
  // Stage 1: fill every under-represented cell once
  // ---------------------------------------------------------------------------------------------

  const BY_SCORE_DESC: OpenCandidate -> real := (c: OpenCandidate) => -c.score

  method FindInCell(scored: seq<OpenCandidate>, picked: set<Address>, cell: Cell) returns (found: Option<nat>)
    ensures match found
            case Some(j) => j < |scored| && scored[j].addr !in picked && scored[j].Bucket() == cell
                            && forall i :: 0 <= i < j ==> scored[i].addr in picked || scored[i].Bucket() != cell
            case None => forall i :: 0 <= i < |scored| ==> scored[i].addr in picked || scored[i].Bucket() != cell
  {
    var j := 0;
    while j < |scored|
      invariant j <= |scored|
      invariant forall i :: 0 <= i < j ==> scored[i].addr in picked || scored[i].Bucket() != cell
    {
      if scored[j].addr !in picked && scored[j].Bucket() == cell {
        return Some(j);
      }
      j := j + 1;
    }
    return None;
  }

  /** A sweep pick is the best candidate of a known cell that was below the floor when it was made. */
  ghost predicate SweepPick(result: seq<OpenCandidate>, i: nat, scored: seq<OpenCandidate>, view: BucketView, k: nat)
    requires i < |result|
  {
    var c := result[i];
    && c in scored && c.subnet != Unknown
    && CellCount(view, c.Bucket()) + Recount(result[..i], c.Bucket()) < k
    && forall d :: d in scored && d.Bucket() == c.Bucket() ==> d.score <= c.score
  }

  /** The floor of `cell` is met, or one of the picks from `start` on landed in it. */
  ghost predicate Served(result: seq<OpenCandidate>, start: nat, cell: Cell, view: BucketView, k: nat)
    requires start <= |result|
  {
    || CellCount(view, cell) + Recount(result, cell) >= k
    || exists i :: start <= i < |result| && result[i].Bucket() == cell
  }

  /** The picks from `start` on: sweep picks, one per attempted cell. */
  ghost predicate SweepPicks(result: seq<OpenCandidate>, start: nat, scored: seq<OpenCandidate>,
                             attempted: set<Cell>, view: BucketView, k: nat)
  {
    && (forall i :: start <= i < |result| ==> SweepPick(result, i, scored, view, k) && result[i].Bucket() in attempted)
    && (forall i, j :: start <= i < j < |result| ==> result[i].Bucket() != result[j].Bucket())
  }

  ghost predicate CellSeen(scored: seq<OpenCandidate>, n: nat, cell: Cell)
    requires n <= |scored|
  {
    exists i :: 0 <= i < n && scored[i].Known() && scored[i].Bucket() == cell
  }

  /** The cells attempted are the known ones among the first `n` candidates. */
  ghost predicate CellsAttempted(scored: seq<OpenCandidate>, n: nat, attempted: set<Cell>)
    requires n <= |scored|
  {
    forall cell :: cell in attempted <==> CellSeen(scored, n, cell)
  }

  ghost predicate AttemptedServed(result: seq<OpenCandidate>, start: nat,
                                  attempted: set<Cell>, view: BucketView, k: nat)
    requires start <= |result|
  {
    forall cell :: cell in attempted ==> Served(result, start, cell, view, k)
  }

  /** What the sweep has established after looking at the first `n` candidates. */
  ghost predicate Sweeping(result: seq<OpenCandidate>, start: nat, scored: seq<OpenCandidate>,
                           n: nat, attempted: set<Cell>, view: BucketView, k: nat)
    requires start <= |result| && n <= |scored|
  {
    && SweepPicks(result, start, scored, attempted, view, k)
    && CellsAttempted(scored, n, attempted)
    && AttemptedServed(result, start, attempted, view, k)
  }

  lemma CellsAttemptedNext(scored: seq<OpenCandidate>, n: nat, attempted: set<Cell>)
    requires n < |scored| && CellsAttempted(scored, n, attempted)
    ensures CellsAttempted(scored, n + 1, if scored[n].Known() then attempted + {scored[n].Bucket()} else attempted)
  {
    var next := if scored[n].Known() then attempted + {scored[n].Bucket()} else attempted;
    forall cell ensures cell in next <==> CellSeen(scored, n + 1, cell) {
      if CellSeen(scored, n, cell) {
        var i :| 0 <= i < n && scored[i].Known() && scored[i].Bucket() == cell;
        assert i < n + 1;
      } else if CellSeen(scored, n + 1, cell) {
        var i :| 0 <= i < n + 1 && scored[i].Known() && scored[i].Bucket() == cell;
        assert i == n;
      }
    }
  }

  lemma BucketIsKnown(a: OpenCandidate, b: OpenCandidate)
    requires a.Bucket() == b.Bucket()
    ensures a.Known() == b.Known()
  {}

  /** The first candidate seen of a cell is its best, and nobody has picked it yet. */
  lemma FirstOfItsCell(result: seq<OpenCandidate>, start: nat, scored: seq<OpenCandidate>,
                       n: nat, attempted: set<Cell>, view: BucketView, k: nat)
    requires start <= |result| && n < |scored| && Sweeping(result, start, scored, n, attempted, view, k)
    requires Distinct(scored) && Sorted(scored, BY_SCORE_DESC) && Addrs(scored) !! Addrs(result[..start])
    requires scored[n].Known() && scored[n].Bucket() !in attempted
    ensures scored[n].addr !in Addrs(result)
    ensures forall i :: 0 <= i < n ==> scored[i].Bucket() != scored[n].Bucket()
    ensures forall d :: d in scored && d.Bucket() == scored[n].Bucket() ==> d.score <= scored[n].score
  {
    var c := scored[n];
    hide Served, Recount, CellCount;
    assert !CellSeen(scored, n, c.Bucket());
    forall i | 0 <= i < |result| ensures result[i].addr != c.addr {
      if i < start {
        assert result[..start][i] == result[i];
        assert result[i].addr in Addrs(result[..start]) && c.addr in Addrs(scored);
      } else {
        assert SweepPick(result, i, scored, view, k);
        var m :| 0 <= m < |scored| && scored[m] == result[i];
        assert scored[m].Bucket() != c.Bucket();
      }
    }
    forall i | 0 <= i < n ensures scored[i].Bucket() != c.Bucket() {
      if scored[i].Bucket() == c.Bucket() {
        BucketIsKnown(scored[i], c);
      }
    }
    BestOfItsCell(scored, n);
  }

  lemma BestOfItsCell(scored: seq<OpenCandidate>, n: nat)
    requires n < |scored| && Sorted(scored, BY_SCORE_DESC)
    requires forall i :: 0 <= i < n ==> scored[i].Bucket() != scored[n].Bucket()
    ensures forall d :: d in scored && d.Bucket() == scored[n].Bucket() ==> d.score <= scored[n].score
  {
    forall d | d in scored && d.Bucket() == scored[n].Bucket() ensures d.score <= scored[n].score {
      var m :| 0 <= m < |scored| && scored[m] == d;
      assert m >= n;
      assert BY_SCORE_DESC(scored[n]) <= BY_SCORE_DESC(scored[m]);
    }
  }

  lemma PicksSurvive(result: seq<OpenCandidate>, start: nat, c: OpenCandidate,
                     scored: seq<OpenCandidate>, view: BucketView, k: nat)
    requires forall i :: start <= i < |result| ==> SweepPick(result, i, scored, view, k)
    ensures forall i :: start <= i < |result| ==> SweepPick(result + [c], i, scored, view, k)
  {
    var next := result + [c];
    forall i | start <= i < |result| ensures SweepPick(next, i, scored, view, k) {
      assert SweepPick(result, i, scored, view, k);
      assert next[..i] == result[..i];
    }
  }

  lemma ServedSurvives(result: seq<OpenCandidate>, start: nat, c: OpenCandidate, cell: Cell, view: BucketView, k: nat)
    requires start <= |result| && (Served(result, start, cell, view, k) || c.Bucket() == cell)
    ensures Served(result + [c], start, cell, view, k)
  {
    var next := result + [c];
    if c.Bucket() == cell {
      assert next[|result|].Bucket() == cell;
    } else if i :| start <= i < |result| && result[i].Bucket() == cell {
      assert next[i].Bucket() == cell;
    } else {
      RecountGrows(next, |result|, cell);
      assert next[..|result|] == result;
    }
  }

  lemma SweepPicksNext(result: seq<OpenCandidate>, start: nat, scored: seq<OpenCandidate>,
                       c: OpenCandidate, attempted: set<Cell>, view: BucketView, k: nat)
    requires start <= |result| && SweepPicks(result, start, scored, attempted, view, k) && c.Bucket() !in attempted
    requires SweepPick(result + [c], |result|, scored, view, k)
    ensures SweepPicks(result + [c], start, scored, attempted + {c.Bucket()}, view, k)
  {
    PicksSurvive(result, start, c, scored, view, k);
    hide SweepPick;
    var next := result + [c];
    assert forall i :: 0 <= i < |result| ==> next[i] == result[i];
  }

  lemma SweepTakes(result: seq<OpenCandidate>, start: nat, scored: seq<OpenCandidate>,
                   n: nat, attempted: set<Cell>, view: BucketView, k: nat)
    requires start <= |result| && n < |scored| && Sweeping(result, start, scored, n, attempted, view, k)
    requires scored[n].Known() && scored[n].Bucket() !in attempted
    requires forall d :: d in scored && d.Bucket() == scored[n].Bucket() ==> d.score <= scored[n].score
    requires CellCount(view, scored[n].Bucket()) + Recount(result, scored[n].Bucket()) < k
    ensures Sweeping(result + [scored[n]], start, scored, n + 1, attempted + {scored[n].Bucket()}, view, k)
  {
    hide Served, Recount, CellCount, SweepPicks, CellsAttempted;
    var next, cell := result + [scored[n]], scored[n].Bucket();
    assert next[..|result|] == result;
    assert SweepPick(next, |result|, scored, view, k);
    SweepPicksNext(result, start, scored, scored[n], attempted, view, k);
    CellsAttemptedNext(scored, n, attempted);
    hide SweepPick;
    forall other | other in attempted + {cell} ensures Served(next, start, other, view, k) {
      ServedSurvives(result, start, scored[n], other, view, k);
    }
  }

  lemma SweepPasses(result: seq<OpenCandidate>, start: nat, scored: seq<OpenCandidate>,
                    n: nat, attempted: set<Cell>, view: BucketView, k: nat)
    requires start <= |result| && n < |scored| && Sweeping(result, start, scored, n, attempted, view, k)
    requires scored[n].Known() ==> Served(result, start, scored[n].Bucket(), view, k)
    ensures Sweeping(result, start, scored, n + 1,
                     if scored[n].Known() then attempted + {scored[n].Bucket()} else attempted, view, k)
  {
    CellsAttemptedNext(scored, n, attempted);
    hide Served, Recount, CellCount, SweepPick, CellsAttempted;
  }

  lemma SweepBegins(result: seq<OpenCandidate>, scored: seq<OpenCandidate>, view: BucketView, k: nat)
    ensures Sweeping(result, |result|, scored, 0, {}, view, k)
  {}

  lemma SweepEnds(result: seq<OpenCandidate>, start: nat, scored: seq<OpenCandidate>,
                  n: nat, attempted: set<Cell>, view: BucketView, k: nat)
    requires start <= |result| && n <= |scored| && Sweeping(result, start, scored, n, attempted, view, k)
    ensures forall i :: start <= i < |result| ==> SweepPick(result, i, scored, view, k)
    ensures forall i, j :: start <= i < j < |result| ==> result[i].Bucket() != result[j].Bucket()
    ensures n == |scored| ==> forall c :: c in scored && c.Known() ==> Served(result, start, c.Bucket(), view, k)
  {
    hide Served, SweepPick;
    if n == |scored| {
      forall c | c in scored && c.Known() ensures Served(result, start, c.Bucket(), view, k) {
        var i :| 0 <= i < |scored| && scored[i] == c;
        assert CellSeen(scored, n, c.Bucket());
      }
    }
  }

  /** For each known cell below the floor `k`, picks its best candidate, once. */
  method FillSweep(scored: seq<OpenCandidate>, view: BucketView, k: nat, limit: nat,
                   result0: seq<OpenCandidate>, picked0: set<Address>, fillCounts0: map<Cell, nat>)
    returns (result: seq<OpenCandidate>, picked: set<Address>, fillCounts: map<Cell, nat>)
    requires Distinct(scored) && Sorted(scored, BY_SCORE_DESC) && Addrs(scored) !! picked0
    requires Books(result0, picked0, fillCounts0) && |result0| <= limit
    ensures Books(result, picked, fillCounts)
    ensures |result0| <= |result| <= limit && result[..|result0|] == result0
    ensures forall i :: |result0| <= i < |result| ==> SweepPick(result, i, scored, view, k)
    ensures forall i, j :: |result0| <= i < j < |result| ==> result[i].Bucket() != result[j].Bucket()
    ensures |result| < limit ==> forall c :: c in scored && c.Known() ==> Served(result, |result0|, c.Bucket(), view, k)
  {
    hide Sweeping, Books, SweepPick, Served, Recount, CellCount, Distinct, Sorted, Addrs;
    result, picked, fillCounts := result0, picked0, fillCounts0;
    var attempted: set<Cell> := {};
    var n := 0;
    ghost var start := |result0|;
    BooksSay(result, picked, fillCounts, Cell(Fast, Unknown));
    SweepBegins(result, scored, view, k);
    while n < |scored| && |result| < limit
      invariant n <= |scored|
      invariant Books(result, picked, fillCounts)
      invariant start <= |result| <= limit && result[..start] == result0
      invariant Sweeping(result, start, scored, n, attempted, view, k)
    {
      var c := scored[n];
      var cell := c.Bucket();
      if c.Known() && cell !in attempted {
        BooksSay(result, picked, fillCounts, cell);
        if CellCount(view, cell) + Lookup(fillCounts, cell) < k {
          FirstOfItsCell(result, start, scored, n, attempted, view, k);
          var found := FindInCell(scored, picked, cell);
          if found.Some? {
            var pick := scored[found.value];
            assert found.value == n;
            SweepTakes(result, start, scored, n, attempted, view, k);
            BooksAfterPick(result, picked, fillCounts, pick);
            picked := picked + {pick.addr};
            fillCounts := fillCounts[cell := Lookup(fillCounts, cell) + 1];
            result := result + [pick];
          }
        } else {
          ServedAtFloor(result, start, cell, view, k);
          SweepPasses(result, start, scored, n, attempted, view, k);
        }
        attempted := attempted + {cell};
      } else {
        AttemptedIsServed(result, start, scored, n, attempted, view, k);
        SweepPasses(result, start, scored, n, attempted, view, k);
        assert c.Known() ==> attempted + {cell} == attempted;
      }
      n := n + 1;
    }
    SweepEnds(result, start, scored, n, attempted, view, k);
  }

  lemma ServedAtFloor(result: seq<OpenCandidate>, start: nat, cell: Cell, view: BucketView, k: nat)
    requires start <= |result| && CellCount(view, cell) + Recount(result, cell) >= k
    ensures Served(result, start, cell, view, k)
  {}

  lemma AttemptedIsServed(result: seq<OpenCandidate>, start: nat, scored: seq<OpenCandidate>,
                          n: nat, attempted: set<Cell>, view: BucketView, k: nat)
    requires start <= |result| && n <= |scored| && Sweeping(result, start, scored, n, attempted, view, k)
    ensures forall cell :: cell in attempted ==> Served(result, start, cell, view, k)
  {}

  // ---------------------------------------------------------------------------------------------
  // Stage 2: the best of what is left
  // ---------------------------------------------------------------------------------------------

  /** Picks from `start` on come from `scored`, best first, and outscore whatever was left out. */
  ghost predicate BestFirst(result: seq<OpenCandidate>, start: nat, scored: seq<OpenCandidate>)
    requires start <= |result|
  {
    && (forall i :: start <= i < |result| ==> result[i] in scored)
    && (forall i, j :: start <= i < j < |result| ==> result[i].score >= result[j].score)
    && (forall i, d :: start <= i < |result| && d in scored && d.addr !in Addrs(result) ==> d.score <= result[i].score)
  }

  /** What utility ranking has established after looking at the first `n` candidates. */
  ghost predicate Ranking(result: seq<OpenCandidate>, start: nat, scored: seq<OpenCandidate>, n: nat)
    requires start <= |result| && n <= |scored|
  {
    && (forall i :: start <= i < |result| ==> result[i] in scored)
    && (forall i, j :: start <= i < j < |result| ==> result[i].score >= result[j].score)
    && (forall i, m :: start <= i < |result| && n <= m < |scored| ==> scored[m].score <= result[i].score)
    && (forall m :: 0 <= m < n ==> scored[m].addr in Addrs(result))
  }

  lemma {:induction false} RankingStep(result: seq<OpenCandidate>, start: nat, scored: seq<OpenCandidate>, n: nat)
    requires start <= |result| && n < |scored| && Ranking(result, start, scored, n) && Sorted(scored, BY_SCORE_DESC)
    ensures scored[n].addr in Addrs(result) ==> Ranking(result, start, scored, n + 1)
    ensures Ranking(result + [scored[n]], start, scored, n + 1)
  {
    var next := result + [scored[n]];
    AddrsSnoc(result, scored[n]);
    forall m | n < m < |scored| ensures scored[m].score <= scored[n].score {
      assert BY_SCORE_DESC(scored[n]) <= BY_SCORE_DESC(scored[m]);
    }
    hide Addrs, Sorted;
  }

  lemma RankingEnds(result: seq<OpenCandidate>, start: nat, scored: seq<OpenCandidate>, n: nat)
    requires start <= |result| && n <= |scored| && Ranking(result, start, scored, n)
    ensures BestFirst(result, start, scored)
    ensures n == |scored| ==> Addrs(scored) <= Addrs(result)
  {}

  /** Fills the remaining slots by score. */
  method UtilityRank(scored: seq<OpenCandidate>, limit: nat, result0: seq<OpenCandidate>,
                     picked0: set<Address>, fillCounts0: map<Cell, nat>)
    returns (result: seq<OpenCandidate>, picked: set<Address>, fillCounts: map<Cell, nat>)
    requires Sorted(scored, BY_SCORE_DESC) && Books(result0, picked0, fillCounts0) && |result0| <= limit
    ensures Books(result, picked, fillCounts)
    ensures |result0| <= |result| <= limit && result[..|result0|] == result0
    ensures BestFirst(result, |result0|, scored)
    ensures |result| < limit ==> Addrs(scored) <= Addrs(result)
  {
    hide Books, Ranking, BestFirst, Recount, Sorted, Addrs;
    result, picked, fillCounts := result0, picked0, fillCounts0;
    ghost var start := |result0|;
    var n := 0;
    RankingBegins(result, scored);
    while n < |scored| && |result| < limit
      invariant n <= |scored|
      invariant Books(result, picked, fillCounts)
      invariant start <= |result| <= limit && result[..start] == result0
      invariant Ranking(result, start, scored, n)
    {
      var c := scored[n];
      RankingStep(result, start, scored, n);
      BooksSay(result, picked, fillCounts, c.Bucket());
      if c.addr !in picked {
        BooksAfterPick(result, picked, fillCounts, c);
        picked := picked + {c.addr};
        result := result + [c];
        if c.Known() {
          var cell := c.Bucket();
          fillCounts := fillCounts[cell := Lookup(fillCounts, cell) + 1];
        }
      }
      n := n + 1;
    }
    RankingEnds(result, start, scored, n);
  }

  lemma RankingBegins(result: seq<OpenCandidate>, scored: seq<OpenCandidate>)
    ensures Ranking(result, |result|, scored, 0)
  {}

  // ---------------------------------------------------------------------------------------------
  // Both stages over one tier, and both tiers
  // ---------------------------------------------------------------------------------------------

  /** Sorting a tier and appending utility picks changes nothing about the sweep's picks. */
  lemma SweepSurvives(mid: seq<OpenCandidate>, result: seq<OpenCandidate>, start: nat,
                      scored: seq<OpenCandidate>, tier: seq<OpenCandidate>, view: BucketView, k: nat)
    requires start <= |mid| <= |result| && result[..|mid|] == mid
    requires forall c :: c in scored <==> c in tier
    requires forall i :: start <= i < |mid| ==> SweepPick(mid, i, scored, view, k)
    requires BestFirst(result, |mid|, scored)
    ensures forall i :: start <= i < |mid| ==> SweepPick(result, i, tier, view, k)
    ensures forall i :: start <= i < |result| ==> result[i] in tier
    ensures BestFirst(result, |mid|, tier)
  {
    hide Recount, CellCount;
    forall i | start <= i < |mid| ensures SweepPick(result, i, tier, view, k) && result[i] in tier {
      assert SweepPick(mid, i, scored, view, k);
      assert result[..i] == mid[..i] && result[i] == mid[i];
    }
  }

  lemma AddrsSplit(s: seq<OpenCandidate>, n: nat)
    requires n <= |s|
    ensures Addrs(s) == Addrs(s[..n]) + Addrs(s[n..])
    ensures Distinct(s) ==> Distinct(s[n..])
  {
    assert s == s[..n] + s[n..];
    assert forall i :: 0 <= i < |s| - n ==> s[n..][i] == s[n + i];
  }

  lemma FilledCount(result0: seq<OpenCandidate>, result: seq<OpenCandidate>, tier: seq<OpenCandidate>, limit: nat)
    requires |result0| <= |result| <= limit && result[..|result0|] == result0
    requires Distinct(result) && Distinct(tier) && Addrs(tier) !! Addrs(result0)
    requires forall i :: |result0| <= i < |result| ==> result[i] in tier
    requires |result| < limit ==> Addrs(tier) <= Addrs(result)
    ensures |result| == Min(limit, |result0| + |tier|)
  {
    var rest := result[|result0|..];
    AddrsSplit(result, |result0|);
    DistinctIffAsManyAddrs(rest);
    DistinctIffAsManyAddrs(tier);
    assert Addrs(rest) <= Addrs(tier);
    SubsetCardinality(Addrs(rest), Addrs(tier));
    if |result| < limit {
      assert Addrs(tier) <= Addrs(rest);
      SubsetCardinality(Addrs(tier), Addrs(rest));
    }
  }

  /** `result` from `start` up to `end` was filled from one tier: first one sweep pick for each cell below
      the floor, up to `swept`, then the best of the rest, and those only once every known cell of the
      tier is at the floor or was given a pick. */
  ghost predicate TierFilled(result: seq<OpenCandidate>, start: nat, swept: nat, end: nat,
                             tier: seq<OpenCandidate>, view: BucketView, k: nat)
  {
    && start <= swept <= end <= |result|
    && (forall i :: start <= i < swept ==> SweepPick(result, i, tier, view, k))
    && (forall i, j :: start <= i < j < swept ==> result[i].Bucket() != result[j].Bucket())
    && (swept < end ==>
          forall c :: c in tier && c.subnet != Unknown ==> Served(result[..swept], start, c.Bucket(), view, k))
    && BestFirst(result[..end], swept, tier)
  }

  /** Later picks change nothing about a tier that is filled. */
  lemma TierStaysFilled(result: seq<OpenCandidate>, more: seq<OpenCandidate>, start: nat,
                        swept: nat, tier: seq<OpenCandidate>, view: BucketView, k: nat)
    requires TierFilled(result, start, swept, |result|, tier, view, k)
    requires |result| <= |more| && more[..|result|] == result
    ensures TierFilled(more, start, swept, |result|, tier, view, k)
  {
    hide BestFirst, Served, Recount, CellCount;
    assert result[..|result|] == result && more[..swept] == result[..swept];
    assert forall i :: 0 <= i < |result| ==> more[i] == result[i];
    forall i | start <= i < swept ensures SweepPick(more, i, tier, view, k) {
      assert SweepPick(result, i, tier, view, k);
      assert more[..i] == result[..i];
    }
  }

  lemma NothingFilled(result: seq<OpenCandidate>, tier: seq<OpenCandidate>, view: BucketView, k: nat)
    ensures TierFilled(result, |result|, |result|, |result|, tier, view, k)
  {
    assert result[..|result|] == result;
  }

  /** Fills from one tier. `swept` marks where the sweep's picks end and the utility picks begin. */
  method FillOpens(tier: seq<OpenCandidate>, view: BucketView, k: nat, limit: nat,
                   result0: seq<OpenCandidate>, picked0: set<Address>, fillCounts0: map<Cell, nat>)
    returns (result: seq<OpenCandidate>, picked: set<Address>, fillCounts: map<Cell, nat>, ghost swept: nat)
    requires Distinct(tier) && Addrs(tier) !! picked0
    requires Books(result0, picked0, fillCounts0) && |result0| <= limit
    ensures Books(result, picked, fillCounts)
    ensures |result0| <= |result| && result[..|result0|] == result0
    ensures |result| == Min(limit, |result0| + |tier|)
    ensures forall i :: |result0| <= i < |result| ==> result[i] in tier
    ensures TierFilled(result, |result0|, swept, |result|, tier, view, k)
  {
    hide Books, BestFirst, SweepPick, Served, Recount, Sorted, Addrs, Distinct, StableSort, CellCount;
    result, picked, fillCounts := result0, picked0, fillCounts0;
    swept := |result0|;
    NothingFilled(result, tier, view, k);
    if tier == [] || |result| >= limit {
      return;
    }
    var scored := StableSort(tier, BY_SCORE_DESC);
    StableSortSorts(tier, BY_SCORE_DESC);
    SortKeepsDistinct(tier, BY_SCORE_DESC);
    if k > 0 {
      result, picked, fillCounts := FillSweep(scored, view, k, limit, result, picked, fillCounts);
    } else {
      ServedWithoutFloor(result, |result0|, view);
    }
    swept := |result|;
    ghost var mid := result;
    result, picked, fillCounts := UtilityRank(scored, limit, result, picked, fillCounts);
    SweepSurvives(mid, result, |result0|, scored, tier, view, k);
    BooksHold(result0, picked0, fillCounts0);
    BooksHold(result, picked, fillCounts);
    assert result[..swept] == mid && result[..|result0|] == mid[..|result0|] && result[..|result|] == result;
    FilledCount(result0, result, tier, limit);
  }

  lemma ServedWithoutFloor(result: seq<OpenCandidate>, start: nat, view: BucketView)
    requires start <= |result|
    ensures forall cell :: Served(result, start, cell, view, 0)
  {}

  lemma BooksHold(result: seq<OpenCandidate>, picked: set<Address>, fillCounts: map<Cell, nat>)
    requires Books(result, picked, fillCounts)
    ensures Distinct(result) && picked == Addrs(result)
  {}

  // ---------------------------------------------------------------------------------------------
  // Forwarding-capable peers before ticket sinks
  // ---------------------------------------------------------------------------------------------

  datatype Forwarding = Forwarding(demote: bool, minimum: nat, outgoing: map<Address, nat>)

  predicate Capable(f: Forwarding, c: OpenCandidate) {
    !f.demote || (if c.addr in f.outgoing then f.outgoing[c.addr] else 0) >= Max(f.minimum, 1)
  }

  function PartitionByForwarding(cs: seq<OpenCandidate>, f: Forwarding): (seq<OpenCandidate>, seq<OpenCandidate>) {
    if !f.demote then (cs, [])
    else (Filter(cs, (c: OpenCandidate) => Capable(f, c)), Filter(cs, (c: OpenCandidate) => !Capable(f, c)))
  }

  lemma {:induction false} TiersOf(cs: seq<OpenCandidate>, f: Forwarding,
                                   yes: OpenCandidate -> bool, no: OpenCandidate -> bool)
    requires forall c :: yes(c) == !no(c)
    requires Distinct(cs)
    ensures |Filter(cs, yes)| + |Filter(cs, no)| == |cs|
    ensures Distinct(Filter(cs, yes)) && Distinct(Filter(cs, no))
    ensures Addrs(Filter(cs, yes)) !! Addrs(Filter(cs, no))
  {
    if cs != [] {
      var rest, c := cs[1..], cs[0];
      assert forall i :: 0 <= i < |rest| ==> rest[i] == cs[i + 1];
      TiersOf(rest, f, yes, no);
      assert c.addr !in Addrs(rest);
      assert Addrs(Filter(rest, yes)) <= Addrs(rest) && Addrs(Filter(rest, no)) <= Addrs(rest);
      HeadDistinct(c, Filter(rest, yes));
      HeadDistinct(c, Filter(rest, no));
    }
  }

  lemma HeadDistinct(c: OpenCandidate, s: seq<OpenCandidate>)
    requires Distinct(s) && c.addr !in Addrs(s)
    ensures Distinct([c] + s) && Addrs([c] + s) == {c.addr} + Addrs(s)
  {
    var t := [c] + s;
    assert forall i :: 1 <= i < |t| ==> t[i] == s[i - 1] && s[i - 1].addr in Addrs(s);
  }

  lemma TiersSplitTheCandidates(cs: seq<OpenCandidate>, f: Forwarding)
    requires Distinct(cs)
    ensures var (capable, sinks) := PartitionByForwarding(cs, f);
            && |capable| + |sinks| == |cs| && Distinct(capable) && Distinct(sinks) && Addrs(capable) !! Addrs(sinks)
            && (forall c :: c in capable <==> c in cs && Capable(f, c))
            && (forall c :: c in sinks <==> c in cs && !Capable(f, c))
  {
    if f.demote {
      TiersOf(cs, f, (c: OpenCandidate) => Capable(f, c), (c: OpenCandidate) => !Capable(f, c));
    }
  }

  function Keys(picks: seq<OpenCandidate>): seq<(Address, OffchainKey)> {
    seq(|picks|, i requires 0 <= i < |picks| => (picks[i].addr, picks[i].key))
  }

  /** A ticket sink is picked only once every capable candidate is, and stands behind all of them. */
  ghost predicate CapableFirst(result: seq<OpenCandidate>, cs: seq<OpenCandidate>, f: Forwarding) {
    forall j :: 0 <= j < |result| && !Capable(f, result[j]) ==>
      && (forall i :: 0 <= i < |result| && Capable(f, result[i]) ==> i < j)
      && (forall c :: c in cs && Capable(f, c) ==> c in result)
  }

  lemma SubsetOfSameSize<T>(a: set<T>, b: set<T>)
    requires a <= b && |a| == |b|
    ensures a == b
  {
    assert b == a + (b - a);
  }

  lemma WholeTierPicked(picks: seq<OpenCandidate>, tier: seq<OpenCandidate>)
    requires Distinct(picks) && Distinct(tier) && |picks| == |tier|
    requires forall i :: 0 <= i < |picks| ==> picks[i] in tier
    ensures forall c :: c in tier ==> c in picks
  {
    DistinctIffAsManyAddrs(picks);
    DistinctIffAsManyAddrs(tier);
    assert Addrs(picks) <= Addrs(tier);
    SubsetOfSameSize(Addrs(picks), Addrs(tier));
    forall c | c in tier ensures c in picks {
      assert c.addr in Addrs(picks);
      var i :| 0 <= i < |picks| && picks[i].addr == c.addr;
      SameAddrSameCandidate(tier, picks[i], c);
    }
  }

  lemma SameAddrSameCandidate(s: seq<OpenCandidate>, a: OpenCandidate, b: OpenCandidate)
    requires Distinct(s) && a in s && b in s && a.addr == b.addr
    ensures a == b
  {
    var i :| 0 <= i < |s| && s[i] == a;
    var j :| 0 <= j < |s| && s[j] == b;
  }

  lemma TiersInOrder(picks: seq<OpenCandidate>, m: nat, cs: seq<OpenCandidate>, f: Forwarding)
    requires m <= |picks|
    requires forall i :: 0 <= i < m ==> Capable(f, picks[i])
    requires forall i :: m <= i < |picks| ==> !Capable(f, picks[i])
    requires m < |picks| ==> forall c :: c in cs && Capable(f, c) ==> c in picks[..m]
    ensures CapableFirst(picks, cs, f)
  {
    if m < |picks| {
      assert forall c :: c in picks[..m] ==> c in picks;
    }
  }

  /** Demotion is on and the peer has fewer outgoing channels than it should, or none. */
  ghost predicate Demoted(f: Forwarding, c: OpenCandidate) {
    f.demote && !(c.addr in f.outgoing && f.outgoing[c.addr] >= f.minimum && f.outgoing[c.addr] > 0)
  }

  lemma DemotedLast(picks: seq<OpenCandidate>, cs: seq<OpenCandidate>, f: Forwarding)
    requires CapableFirst(picks, cs, f)
    ensures forall j {:trigger picks[j]} :: 0 <= j < |picks| && Demoted(f, picks[j]) ==>
              && (forall i {:trigger picks[i]} :: j < i < |picks| ==> Demoted(f, picks[i]))
              && (forall c :: c in cs && !Demoted(f, c) ==> c in picks)
  {
    assert forall c: OpenCandidate :: Demoted(f, c) <==> !Capable(f, c);
    hide Demoted, Capable;
  }

  /** Fills from the capable peers first and from ticket sinks with what is left. The capable picks end at
      `m`; `swept` and `sinksSwept` mark where each tier's sweep ends. */
  method SelectOpens(cs: seq<OpenCandidate>, view: BucketView, f: Forwarding, k: nat, openPerTick: nat, deficit: nat)
    returns (opens: seq<(Address, OffchainKey)>, picks: seq<OpenCandidate>, ghost m: nat, ghost swept: nat,
             ghost sinksSwept: nat)
    requires Distinct(cs)
    ensures |opens| == |picks| && forall i :: 0 <= i < |picks| ==> opens[i] == (picks[i].addr, picks[i].key)
    ensures |picks| == Min(Min(openPerTick, deficit), |cs|)
    ensures Distinct(picks) && forall i :: 0 <= i < |picks| ==> picks[i] in cs
    ensures CapableFirst(picks, cs, f)
    // Said of the channel counts alone: a peer that is demoted for having too few comes after every other.
    ensures forall j {:trigger picks[j]} :: 0 <= j < |picks| && Demoted(f, picks[j]) ==>
              && (forall i {:trigger picks[i]} :: j < i < |picks| ==> Demoted(f, picks[i]))
              && (forall c :: c in cs && !Demoted(f, c) ==> c in picks)
    ensures TierFilled(picks, 0, swept, m, PartitionByForwarding(cs, f).0, view, k)
    ensures TierFilled(picks, m, sinksSwept, |picks|, PartitionByForwarding(cs, f).1, view, k)
  {
    hide Books, BestFirst, SweepPick, Served, Recount, CellCount, Capable, PartitionByForwarding, CapableFirst,
      Distinct, Addrs, TierFilled;
    var limit := Min(openPerTick, deficit);
    var tiers := PartitionByForwarding(cs, f);
    var capable, sinks := tiers.0, tiers.1;
    TiersSplitTheCandidates(cs, f);
    var picked: set<Address>, fillCounts: map<Cell, nat> := {}, map[];
    picks := [];
    EmptyBooks(capable);
    picks, picked, fillCounts, swept := FillOpens(capable, view, k, limit, picks, picked, fillCounts);
    m, sinksSwept := |picks|, |picks|;
    NothingFilled(picks, sinks, view, k);
    BooksHold(picks, picked, fillCounts);
    if |picks| < limit {
      WholeTierPicked(picks, capable);
      AddrsWithin(picks, capable);
      ghost var first := picks;
      picks, picked, fillCounts, sinksSwept := FillOpens(sinks, view, k, limit, picks, picked, fillCounts);
      BooksHold(picks, picked, fillCounts);
      assert picks[..m] == first;
      assert forall i :: 0 <= i < m ==> picks[i] == first[i];
      TierStaysFilled(first, picks, 0, swept, capable, view, k);
    }
    TiersInOrder(picks, m, cs, f);
    DemotedLast(picks, cs, f);
    opens := Keys(picks);
  }

  lemma EmptyBooks(tier: seq<OpenCandidate>)
    ensures Books([], {}, map[]) && Addrs(tier) !! {}
  {}

  lemma AddrsWithin(picks: seq<OpenCandidate>, tier: seq<OpenCandidate>)
    requires forall i :: 0 <= i < |picks| ==> picks[i] in tier
    ensures Addrs(picks) <= Addrs(tier)
  {}
}
