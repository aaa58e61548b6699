/**
 Which open channels a selector offers for retirement: the shared close rules, and the
 multi-objective selector's choice among them under the anonymity floor.
 */
module CloseSelection {
  import opened Common
  import opened Selector

  /** An open channel as the selector sees it. `lastUpdate` is the age of the latest observation, zero
      when there is none; `quality` is the composite score and `score` the final score. */
  datatype CloseCandidate = CloseCandidate(id: ChannelId, balance: nat, keyResolved: bool, lastUpdate: nat,
                                           quality: real, score: real)

  datatype CloseRules = CloseRules(drainedBelow: nat, belowQuality: real, unseenFor: nat, observedSinceStart: bool,
                                   minPeerQuality: real)

  predicate Drained(c: CloseCandidate, rules: CloseRules) {
    c.balance <= rules.drainedBelow
  }

  /** The close rules every selector shares. `threshold` overrides the configured quality bound. */
  predicate ShouldClose(c: CloseCandidate, rules: CloseRules, elapsed: nat, threshold: Option<real>) {
    if Drained(c, rules) then true
    else if !c.keyResolved then false
    else if c.lastUpdate == 0 then false
    else if c.quality < (match threshold case Some(t) => t case None => rules.belowQuality) then true
    else
      var stale := c.lastUpdate > rules.unseenFor;
      var guardPassed := !rules.observedSinceStart || c.lastUpdate < elapsed;
      stale && guardPassed
  }

  function EffectiveThreshold(rules: CloseRules, gap: real): real {
    var t := rules.minPeerQuality - gap;
    if t > 0.0 then t else 0.0
  }

  /** Hysteresis: a peer good enough to be opened to is not retired for its quality. Such a channel is
      offered for closure only when drained, or stale past the observation guard. */
  lemma OpenablePeersAreNotRetiredForQuality(c: CloseCandidate, rules: CloseRules, elapsed: nat, gap: real)
    requires gap >= 0.0 && rules.minPeerQuality >= 0.0 && c.quality >= rules.minPeerQuality
    ensures ShouldClose(c, rules, elapsed, Some(EffectiveThreshold(rules, gap))) <==>
              || Drained(c, rules)
              || (c.keyResolved && c.lastUpdate > rules.unseenFor
                  && (rules.observedSinceStart ==> c.lastUpdate < elapsed))
  {
    assert EffectiveThreshold(rules, gap) <= rules.minPeerQuality;
  }

  /** The shared rules said of the channel alone: one drained to the floor is closed whatever else holds; any other
      only if its peer is known and was observed, and is of too low a quality or unseen for too long, where an
      observation from before the start of observing does not count as unseen. */
  lemma ClosedForCause(c: CloseCandidate, rules: CloseRules, elapsed: nat, bound: real)
    ensures ShouldClose(c, rules, elapsed, Some(bound)) <==>
              || c.balance <= rules.drainedBelow
              || (&& c.keyResolved && c.lastUpdate > 0
                  && (|| c.quality < bound
                      || (c.lastUpdate > rules.unseenFor && (rules.observedSinceStart ==> c.lastUpdate < elapsed))))
    ensures ShouldClose(c, rules, elapsed, None) <==> ShouldClose(c, rules, elapsed, Some(rules.belowQuality))
  {}

  // ---------------------------------------------------------------------------------------------
  // Counting occupants
  // ---------------------------------------------------------------------------------------------

  predicate Occupies(c: CloseCandidate, view: BucketView, cell: Cell) {
    c.id in view && view[c.id] == cell
  }

  /** The known cell a closure of `c` is charged to; drained channels are charged to none. */
  function ChargedTo(c: CloseCandidate, rules: CloseRules, view: BucketView): Option<Cell> {
    if !Drained(c, rules) && c.id in view && view[c.id].subnet != Unknown then Some(view[c.id]) else None
  }

  function Occupants(cs: seq<CloseCandidate>, view: BucketView, cell: Cell): nat {
    if cs == [] then 0
    else Occupants(cs[..|cs| - 1], view, cell) + if Occupies(cs[|cs| - 1], view, cell) then 1 else 0
  }

  /** How many of `picks` are charged to `cell`. */
  function Charged(picks: seq<CloseCandidate>, rules: CloseRules, view: BucketView, cell: Cell): nat {
    if picks == [] then 0
    else Charged(picks[..|picks| - 1], rules, view, cell)
         + if ChargedTo(picks[|picks| - 1], rules, view) == Some(cell) then 1 else 0
  }

  method SimulatedCounts(cs: seq<CloseCandidate>, view: BucketView) returns (counts: map<Cell, nat>)
    ensures forall cell :: Lookup(counts, cell) == Occupants(cs, view, cell)
  {
    counts := map[];
    var n := 0;
    while n < |cs|
      invariant n <= |cs|
      invariant forall cell :: Lookup(counts, cell) == Occupants(cs[..n], view, cell)
    {
      assert cs[..n + 1][..n] == cs[..n];
      if cs[n].id in view {
        var cell := view[cs[n].id];
        counts := counts[cell := Lookup(counts, cell) + 1];
      }
      n := n + 1;
    }
    assert cs[..n] == cs;
  }

  // ---------------------------------------------------------------------------------------------
  // The choice
  // ---------------------------------------------------------------------------------------------

  const BY_SCORE: CloseCandidate -> real := (c: CloseCandidate) => c.score

  /** Refused outright: the only occupant of a known cell. */
  predicate SoleOccupant(c: CloseCandidate, rules: CloseRules, view: BucketView) {
    match ChargedTo(c, rules, view)
    case Some(cell) => CellCount(view, cell) <= 1
    case None => false
  }

  /** Closing `c` after `picks` would take its cell below the floor. */
  ghost predicate AtFloor(c: CloseCandidate, picks: seq<CloseCandidate>,
                          cs: seq<CloseCandidate>, rules: CloseRules, view: BucketView, k: nat)
  {
    match ChargedTo(c, rules, view)
    case Some(cell) => Occupants(cs, view, cell) - Charged(picks, rules, view, cell) <= k
    case None => false
  }

  /** Where the candidates in the cell stand. */
  ghost function PlacesIn(cs: seq<CloseCandidate>, view: BucketView, cell: Cell): set<int> {
    set i | 0 <= i < |cs| && cs[i].id in view && view[cs[i].id] == cell
  }

  /** Where those of them stand that are not drained. */
  ghost function UndrainedIn(cs: seq<CloseCandidate>, rules: CloseRules, view: BucketView, cell: Cell): set<int> {
    set i | 0 <= i < |cs| && cs[i].balance > rules.drainedBelow && cs[i].id in view && view[cs[i].id] == cell
  }

  lemma PlacesInNext(front: seq<CloseCandidate>, c: CloseCandidate, view: BucketView, cell: Cell)
    ensures |PlacesIn(front + [c], view, cell)|
         == |PlacesIn(front, view, cell)| + if c.id in view && view[c.id] == cell then 1 else 0
  {
    assert PlacesIn(front + [c], view, cell)
        == PlacesIn(front, view, cell) + if c.id in view && view[c.id] == cell then {|front|} else {};
  }

  lemma UndrainedInNext(front: seq<CloseCandidate>, c: CloseCandidate, rules: CloseRules, view: BucketView, cell: Cell)
    ensures var more := c.balance > rules.drainedBelow && c.id in view && view[c.id] == cell;
            |UndrainedIn(front + [c], rules, view, cell)|
            == |UndrainedIn(front, rules, view, cell)| + if more then 1 else 0
  {
    var more := c.balance > rules.drainedBelow && c.id in view && view[c.id] == cell;
    assert UndrainedIn(front + [c], rules, view, cell)
        == UndrainedIn(front, rules, view, cell) + if more then {|front|} else {};
  }

  lemma {:induction false} OccupantsByPlace(cs: seq<CloseCandidate>, view: BucketView, cell: Cell)
    ensures Occupants(cs, view, cell) == |PlacesIn(cs, view, cell)|
  {
    if cs != [] {
      var n := |cs| - 1;
      OccupantsByPlace(cs[..n], view, cell);
      PlacesInNext(cs[..n], cs[n], view, cell);
      assert cs == cs[..n] + [cs[n]];
    } else {
      assert PlacesIn(cs, view, cell) == {};
    }
  }

  lemma {:induction false} ChargedByPlace(picks: seq<CloseCandidate>, rules: CloseRules, view: BucketView, cell: Cell)
    requires cell.subnet != Unknown
    ensures Charged(picks, rules, view, cell) == |UndrainedIn(picks, rules, view, cell)|
  {
    if picks != [] {
      var n := |picks| - 1;
      ChargedByPlace(picks[..n], rules, view, cell);
      UndrainedInNext(picks[..n], picks[n], rules, view, cell);
      assert picks == picks[..n] + [picks[n]];
    } else {
      assert UndrainedIn(picks, rules, view, cell) == {};
    }
  }

  /** A channel is at the floor exactly if it is not drained, the subnet of its peer is known, and of the candidates
      in its cell no more than the floor are left after the picks that are not drained. */
  lemma AtFloorIff(c: CloseCandidate, picks: seq<CloseCandidate>, cs: seq<CloseCandidate>, rules: CloseRules,
                   view: BucketView, k: nat)
    ensures AtFloor(c, picks, cs, rules, view, k) <==>
              && c.balance > rules.drainedBelow && c.id in view && view[c.id].subnet != Unknown
              && |PlacesIn(cs, view, view[c.id])| - |UndrainedIn(picks, rules, view, view[c.id])| <= k
  {
    hide PlacesIn, UndrainedIn;
    if c.id in view && view[c.id].subnet != Unknown {
      OccupantsByPlace(cs, view, view[c.id]);
      ChargedByPlace(picks, rules, view, view[c.id]);
    }
  }

  ghost predicate FloorKept(picks: seq<CloseCandidate>, cs: seq<CloseCandidate>,
                            rules: CloseRules, view: BucketView, k: nat)
  {
    forall cell :: Charged(picks, rules, view, cell) > 0 ==>
      Occupants(cs, view, cell) - Charged(picks, rules, view, cell) >= k
  }

  ghost predicate Simulated(counts: map<Cell, nat>, picks: seq<CloseCandidate>,
                            cs: seq<CloseCandidate>, rules: CloseRules, view: BucketView)
  {
    forall cell: Cell :: cell.subnet != Unknown ==>
      Lookup(counts, cell) == Occupants(cs, view, cell) - Charged(picks, rules, view, cell)
  }

  /** Where the walk over the ranking stands after its first `n` entries. */
  ghost predicate Walked(picks: seq<CloseCandidate>, scored: seq<CloseCandidate>, n: nat,
                         cs: seq<CloseCandidate>, rules: CloseRules, view: BucketView, k: nat)
    requires n <= |scored|
  {
    && FloorKept(picks, cs, rules, view, k)
    && (forall i :: 0 <= i < |picks| ==> picks[i] in scored[..n])
    && (forall i, j :: 0 <= i < j < |picks| ==> picks[i].id != picks[j].id && picks[i].score <= picks[j].score)
    && (forall i :: 0 <= i < n ==> scored[i] in picks || AtFloor(scored[i], picks, cs, rules, view, k))
  }

  ghost predicate DistinctIds(s: seq<CloseCandidate>) {
    forall i, j :: 0 <= i < j < |s| ==> s[i].id != s[j].id
  }

  lemma ChargedSnoc(picks: seq<CloseCandidate>, c: CloseCandidate, rules: CloseRules, view: BucketView, cell: Cell)
    ensures Charged(picks + [c], rules, view, cell)
         == Charged(picks, rules, view, cell) + if ChargedTo(c, rules, view) == Some(cell) then 1 else 0
  {
    assert (picks + [c])[..|picks|] == picks;
  }

  lemma WalkPicks(picks: seq<CloseCandidate>, scored: seq<CloseCandidate>, n: nat,
                  cs: seq<CloseCandidate>, rules: CloseRules, view: BucketView, k: nat)
    requires n < |scored| && Walked(picks, scored, n, cs, rules, view, k)
    requires DistinctIds(scored) && Sorted(scored, BY_SCORE)
    requires !AtFloor(scored[n], picks, cs, rules, view, k)
    ensures Walked(picks + [scored[n]], scored, n + 1, cs, rules, view, k)
  {
    hide Charged, Occupants;
    var c, next := scored[n], picks + [scored[n]];
    assert scored[..n + 1] == scored[..n] + [c];
    forall cell ensures Charged(next, rules, view, cell) >= Charged(picks, rules, view, cell) {
      ChargedSnoc(picks, c, rules, view, cell);
    }
    forall cell | Charged(next, rules, view, cell) > 0
      ensures Occupants(cs, view, cell) - Charged(next, rules, view, cell) >= k
    {
      ChargedSnoc(picks, c, rules, view, cell);
    }
    forall i | 0 <= i < |picks| ensures picks[i].id != c.id && picks[i].score <= c.score {
      var m :| 0 <= m < n && scored[m] == picks[i];
      assert BY_SCORE(scored[m]) <= BY_SCORE(scored[n]);
    }
    forall i | 0 <= i < n + 1 ensures scored[i] in next || AtFloor(scored[i], next, cs, rules, view, k) {
      if i < n && scored[i] in picks {
        var m :| 0 <= m < |picks| && picks[m] == scored[i];
        assert next[m] == scored[i];
      }
      assert next[|picks|] == c;
    }
  }

  lemma WalkPasses(picks: seq<CloseCandidate>, scored: seq<CloseCandidate>, n: nat,
                   cs: seq<CloseCandidate>, rules: CloseRules, view: BucketView, k: nat)
    requires n < |scored| && Walked(picks, scored, n, cs, rules, view, k)
    requires AtFloor(scored[n], picks, cs, rules, view, k)
    ensures Walked(picks, scored, n + 1, cs, rules, view, k)
  {
    hide Charged, Occupants, AtFloor;
    assert scored[..n + 1] == scored[..n] + [scored[n]];
  }

  /** The simulated counts answer whether the next entry is at the floor, and stay right either way. */
  lemma CountsDecide(counts: map<Cell, nat>, picks: seq<CloseCandidate>, c: CloseCandidate,
                     cs: seq<CloseCandidate>, rules: CloseRules, view: BucketView, k: nat)
    requires Simulated(counts, picks, cs, rules, view)
    ensures AtFloor(c, picks, cs, rules, view, k) <==>
              ChargedTo(c, rules, view).Some? && Lookup(counts, ChargedTo(c, rules, view).value) <= k
    ensures ChargedTo(c, rules, view).None? ==> Simulated(counts, picks + [c], cs, rules, view)
    ensures var cell := ChargedTo(c, rules, view);
            cell.Some? && Lookup(counts, cell.value) > 0 ==>
              Simulated(counts[cell.value := Lookup(counts, cell.value) - 1], picks + [c], cs, rules, view)
  {
    hide Charged, Occupants;
    forall cell ensures Charged(picks + [c], rules, view, cell)
                     == Charged(picks, rules, view, cell) + if ChargedTo(c, rules, view) == Some(cell) then 1 else 0
    {
      ChargedSnoc(picks, c, rules, view, cell);
    }
  }

  function CloseIds(picks: seq<CloseCandidate>): seq<ChannelId> {
    seq(|picks|, i requires 0 <= i < |picks| => picks[i].id)
  }

  /** Eligible: the close rules hold and the channel is not the sole occupant of its cell. */
  predicate Eligible(c: CloseCandidate, rules: CloseRules, elapsed: nat, gap: real, view: BucketView) {
    && ShouldClose(c, rules, elapsed, Some(EffectiveThreshold(rules, gap)))
    && !SoleOccupant(c, rules, view)
  }

  lemma SoleInItsCell(view: BucketView, id: ChannelId)
    requires id in view
    ensures CellCount(view, view[id]) <= 1 <==> forall other :: other in view && view[other] == view[id] ==> other == id
  {
    var cell := view[id];
    var mates := set id | id in view && view[id] == cell;
    assert |mates| == CellCount(view, cell) && id in mates;
    if |mates| <= 1 {
      forall other | other in view && view[other] == view[id] ensures other == id {
        SingleMember(mates, other, id);
      }
    }
    if forall other :: other in view && view[other] == view[id] ==> other == id {
      assert mates == {id};
    }
  }

  lemma SingleMember(s: set<ChannelId>, a: ChannelId, b: ChannelId)
    requires |s| <= 1 && a in s && b in s
    ensures a == b
  {
    if a != b {
      SubsetCardinality({a, b}, s);
    }
  }

  /** The multi-objective selector may close a channel drained to the floor, and any other only for cause, with the
      quality bound lowered by the hysteresis gap but not below zero, and only if another channel shares its
      cell or the subnet of its peer is not known. */
  lemma EligibleExactly(c: CloseCandidate, rules: CloseRules, elapsed: nat, gap: real, view: BucketView)
    ensures Eligible(c, rules, elapsed, gap, view) <==>
              || c.balance <= rules.drainedBelow
              || (&& c.keyResolved && c.lastUpdate > 0
                  && (|| c.quality < rules.minPeerQuality - gap || c.quality < 0.0
                      || (c.lastUpdate > rules.unseenFor && (rules.observedSinceStart ==> c.lastUpdate < elapsed)))
                  && (|| c.id !in view || view[c.id].subnet == Unknown
                      || exists other :: other != c.id && other in view && view[other] == view[c.id]))
  {
    ClosedForCause(c, rules, elapsed, EffectiveThreshold(rules, gap));
    hide ShouldClose, CellCount;
    if c.id in view {
      SoleInItsCell(view, c.id);
    }
  }

  method SelectCloses(cs: seq<CloseCandidate>, view: BucketView, rules: CloseRules,
                      elapsed: nat, gap: real, k: nat, closePerTick: nat)
    returns (closes: seq<ChannelId>, picks: seq<CloseCandidate>)
    requires DistinctIds(cs)
    ensures |closes| == |picks| <= closePerTick && forall i :: 0 <= i < |picks| ==> closes[i] == picks[i].id
    ensures forall c :: c in picks ==> c in cs && Eligible(c, rules, elapsed, gap, view)
    ensures forall i, j :: 0 <= i < j < |picks| ==> picks[i].id != picks[j].id && picks[i].score <= picks[j].score
    ensures FloorKept(picks, cs, rules, view, k)
    // Whatever is eligible and not offered is at its floor, or ranks after a full list.
    ensures forall c :: c in cs && Eligible(c, rules, elapsed, gap, view) && c !in picks ==>
              || AtFloor(c, picks, cs, rules, view, k)
              || (|picks| == closePerTick && forall p :: p in picks ==> p.score <= c.score)
  {
    hide Charged, Occupants, AtFloor, Walked, Simulated, FloorKept, CellCount, StableSort, Sorted, DistinctIds,
      ShouldClose, EffectiveThreshold, SoleOccupant;
    var eligible := Filter(cs, (c: CloseCandidate) => Eligible(c, rules, elapsed, gap, view));
    var scored := StableSort(eligible, BY_SCORE);
    RankedDistinct(cs, eligible, scored, (c: CloseCandidate) => Eligible(c, rules, elapsed, gap, view));
    var counts: map<Cell, nat> := SimulatedCounts(cs, view);
    picks := [];
    WalkBegins(counts, scored, cs, rules, view, k);
    var n := 0;
    while n < |scored| && |picks| < closePerTick
      invariant n <= |scored| && |picks| <= closePerTick
      invariant Walked(picks, scored, n, cs, rules, view, k)
      invariant Simulated(counts, picks, cs, rules, view)
    {
      var c := scored[n];
      var charged := ChargedTo(c, rules, view);
      CountsDecide(counts, picks, c, cs, rules, view, k);
      if charged.Some? && Lookup(counts, charged.value) <= k {
        WalkPasses(picks, scored, n, cs, rules, view, k);
      } else {
        WalkPicks(picks, scored, n, cs, rules, view, k);
        if charged.Some? {
          var remaining: nat := Lookup(counts, charged.value) - 1;
          counts := counts[charged.value := remaining];
        }
        picks := picks + [c];
      }
      n := n + 1;
    }
    WalkEnds(picks, scored, n, cs, rules, view, k);
    closes := CloseIds(picks);
  }

  lemma WalkBegins(counts: map<Cell, nat>, scored: seq<CloseCandidate>,
                   cs: seq<CloseCandidate>, rules: CloseRules, view: BucketView, k: nat)
    requires forall cell :: Lookup(counts, cell) == Occupants(cs, view, cell)
    ensures Walked([], scored, 0, cs, rules, view, k) && Simulated(counts, [], cs, rules, view)
  {}

  lemma WalkEnds(picks: seq<CloseCandidate>, scored: seq<CloseCandidate>, n: nat,
                 cs: seq<CloseCandidate>, rules: CloseRules, view: BucketView, k: nat)
    requires n <= |scored| && Walked(picks, scored, n, cs, rules, view, k) && Sorted(scored, BY_SCORE)
    ensures FloorKept(picks, cs, rules, view, k)
    ensures forall c :: c in picks ==> c in scored
    ensures forall i, j :: 0 <= i < j < |picks| ==> picks[i].id != picks[j].id && picks[i].score <= picks[j].score
    ensures forall c :: c in scored && c !in picks ==>
              || AtFloor(c, picks, cs, rules, view, k)
              || (n < |scored| && forall p :: p in picks ==> p.score <= c.score)
  {
    hide Charged, Occupants, AtFloor;
    forall c | c in scored && c !in picks
      ensures || AtFloor(c, picks, cs, rules, view, k)
              || (n < |scored| && forall p :: p in picks ==> p.score <= c.score)
    {
      var m :| 0 <= m < |scored| && scored[m] == c;
      if m >= n {
        forall p | p in picks ensures p.score <= c.score {
          var i :| 0 <= i < |picks| && picks[i] == p;
          var q :| 0 <= q < n && scored[q] == p;
          assert BY_SCORE(scored[q]) <= BY_SCORE(scored[m]);
        }
      }
    }
  }

  lemma FilterDistinct(cs: seq<CloseCandidate>, keep: CloseCandidate -> bool)
    requires DistinctIds(cs)
    ensures DistinctIds(Filter(cs, keep))
  {
    if cs != [] {
      var rest, c := cs[1..], cs[0];
      assert forall i :: 0 <= i < |rest| ==> rest[i] == cs[i + 1];
      FilterDistinct(rest, keep);
      var f := Filter(rest, keep);
      forall j | 0 <= j < |f| ensures f[j].id != c.id {
        assert f[j] in rest;
      }
    }
  }

  function IdsOf(s: seq<CloseCandidate>): set<ChannelId> { set c | c in s :: c.id }

  lemma {:induction false} DistinctIffAsManyIds(s: seq<CloseCandidate>)
    ensures |IdsOf(s)| <= |s| && (DistinctIds(s) <==> |IdsOf(s)| == |s|)
  {
    if s != [] {
      var n := |s| - 1;
      var front := s[..n];
      DistinctIffAsManyIds(front);
      assert s == front + [s[n]];
      assert IdsOf(s) == IdsOf(front) + {s[n].id};
      assert forall i :: 0 <= i < n ==> front[i] == s[i] && s[i].id in IdsOf(front);
      if s[n].id in IdsOf(front) {
        var i :| 0 <= i < n && front[i].id == s[n].id;
        assert s[i].id == s[n].id;
      }
    }
  }

  lemma RankedDistinct(cs: seq<CloseCandidate>, eligible: seq<CloseCandidate>,
                       scored: seq<CloseCandidate>, keep: CloseCandidate -> bool)
    requires DistinctIds(cs) && eligible == Filter(cs, keep) && scored == StableSort(eligible, BY_SCORE)
    ensures DistinctIds(scored) && Sorted(scored, BY_SCORE)
    ensures forall c :: c in scored <==> c in cs && keep(c)
  {
    FilterDistinct(cs, keep);
    StableSortSorts(eligible, BY_SCORE);
    DistinctIffAsManyIds(eligible);
    DistinctIffAsManyIds(scored);
    assert IdsOf(eligible) == IdsOf(scored);
  }

  /** What the floor means for one returned channel: unless drained or in an unknown subnet, it was not
      alone in its cell, and its cell keeps at least `k` of its occupants. */
  lemma {:induction false} ReturnedChannelLeavesTheFloor(picks: seq<CloseCandidate>, c: CloseCandidate,
                                                         cs: seq<CloseCandidate>, rules: CloseRules,
                                                         elapsed: nat, gap: real, view: BucketView, k: nat)
    requires FloorKept(picks, cs, rules, view, k) && c in picks && Eligible(c, rules, elapsed, gap, view)
    ensures match ChargedTo(c, rules, view)
            case Some(cell) => CellCount(view, cell) >= 2
                               && Occupants(cs, view, cell) - Charged(picks, rules, view, cell) >= k
            case None => Drained(c, rules) || c.id !in view || view[c.id].subnet == Unknown
  {
    var i :| 0 <= i < |picks| && picks[i] == c;
    if ChargedTo(c, rules, view).Some? {
      ChargedPositive(picks, i, rules, view, ChargedTo(c, rules, view).value);
    }
  }

  lemma {:induction false} ChargedPositive(picks: seq<CloseCandidate>, i: nat,
                                           rules: CloseRules, view: BucketView, cell: Cell)
    requires i < |picks| && ChargedTo(picks[i], rules, view) == Some(cell)
    ensures Charged(picks, rules, view, cell) > 0
    decreases |picks|
  {
    if i < |picks| - 1 {
      ChargedPositive(picks[..|picks| - 1], i, rules, view, cell);
    }
  }

  function CellMembers(view: BucketView, ids: set<ChannelId>, cell: Cell): set<ChannelId> {
    set id | id in ids && id in view && view[id] == cell
  }

  lemma OneMoreMember(view: BucketView, ids: set<ChannelId>, c: CloseCandidate, cell: Cell)
    requires c.id !in ids
    ensures |CellMembers(view, ids + {c.id}, cell)|
         == |CellMembers(view, ids, cell)| + if Occupies(c, view, cell) then 1 else 0
  {
    var before, after := CellMembers(view, ids, cell), CellMembers(view, ids + {c.id}, cell);
    if Occupies(c, view, cell) {
      assert after == before + {c.id};
    } else {
      assert after == before;
    }
  }

  lemma IdsSnoc(front: seq<CloseCandidate>, c: CloseCandidate)
    requires DistinctIds(front + [c])
    ensures IdsOf(front + [c]) == IdsOf(front) + {c.id} && DistinctIds(front) && c.id !in IdsOf(front)
  {
    var s := front + [c];
    assert forall i :: 0 <= i < |front| ==> s[i] == front[i];
    assert s[|front|] == c;
  }

  lemma {:induction false} OccupantsAreMembers(cs: seq<CloseCandidate>, view: BucketView, cell: Cell)
    requires DistinctIds(cs)
    ensures Occupants(cs, view, cell) == |CellMembers(view, IdsOf(cs), cell)|
  {
    if cs != [] {
      var front, c := cs[..|cs| - 1], cs[|cs| - 1];
      assert cs == front + [c];
      IdsSnoc(front, c);
      OccupantsAreMembers(front, view, cell);
      OneMoreMember(view, IdsOf(front), c, cell);
    }
  }

  /** When the view holds no other channels than the candidates, as the pipeline builds it, occupants
      are what the view counts. */
  lemma OccupantsAreTheViewsCount(cs: seq<CloseCandidate>, view: BucketView, cell: Cell)
    requires DistinctIds(cs) && view.Keys <= IdsOf(cs)
    ensures Occupants(cs, view, cell) == CellCount(view, cell)
  {
    OccupantsAreMembers(cs, view, cell);
    assert CellMembers(view, IdsOf(cs), cell) == set id | id in view && view[id] == cell;
  }
}
