/**
 What each pass does with its list, place by place: the attempts a place leads to, given what its
 predecessors have left, and where the walk ends.
 */
module Walks {
  import opened Common
  import opened Sizing
  import opened Passes

  // ---------------------------------------------------------------------------------------------
  // The attempts of a walk, place by place
  // ---------------------------------------------------------------------------------------------

  /** The attempts made, and whether the walk has stopped, once so many places are behind it. */
  type Trail = nat -> (seq<Attempt>, bool)

  /** What place `i` leads to, given the attempts made before it. */
  type Rule = (seq<Attempt>, seq<Attempt>, nat) -> bool

  /** What makes the walk stop at place `i`. */
  type Halt = (seq<Attempt>, nat) -> bool

  ghost predicate StepsBy(trail: Trail, rule: Rule, halt: Halt, i: nat) {
    var (before, stopped), (after, stops) := trail(i), trail(i + 1);
    if stopped then after == before && stops
    else if stops then after == before && halt(before, i)
    else before <= after && rule(before, after[|before|..], i)
  }

  ghost predicate WalksBy(trail: Trail, rule: Rule, halt: Halt, m: nat) {
    trail(0) == ([], false) && forall i: nat :: i < m ==> StepsBy(trail, rule, halt, i)
  }

  /** `n[i]` attempts were made before place `i`, for every place reached. */
  ghost predicate PlaceAt(attempts: seq<Attempt>, n: seq<nat>, rule: Rule, i: nat)
    requires i + 1 < |n|
  {
    n[i] <= n[i + 1] <= |attempts| && rule(attempts[..n[i]], attempts[n[i]..n[i + 1]], i)
  }

  ghost predicate Reached(trail: Trail, attempts: seq<Attempt>, n: seq<nat>, i: nat)
    requires i < |n|
  {
    n[i] <= |attempts| && trail(i) == (attempts[..n[i]], false)
  }

  ghost predicate Places(trail: Trail, rule: Rule, halt: Halt, m: nat, n: seq<nat>) {
    var (attempts, stopped) := trail(m);
    && 0 < |n| <= m + 1 && n[0] == 0 && n[|n| - 1] == |attempts|
    && (forall i :: 0 <= i < |n| - 1 ==> PlaceAt(attempts, n, rule, i))
    && (forall i :: 0 <= i < |n| ==> Reached(trail, attempts, n, i))
    && (forall i: nat :: |n| <= i <= m ==> trail(i).1)
    && (stopped <==> |n| <= m)
    && (stopped ==> halt(attempts, |n| - 1))
  }

  lemma PlacesStay(trail: Trail, rule: Rule, halt: Halt, m: nat, n: seq<nat>)
    requires Places(trail, rule, halt, m, n) && StepsBy(trail, rule, halt, m) && trail(m + 1).1
    ensures Places(trail, rule, halt, m + 1, n)
  {
    if !trail(m).1 {
      assert Reached(trail, trail(m).0, n, |n| - 1);
    }
  }

  lemma PlacesGrow(trail: Trail, rule: Rule, halt: Halt, m: nat, n: seq<nat>)
    requires Places(trail, rule, halt, m, n) && StepsBy(trail, rule, halt, m) && !trail(m + 1).1
    ensures Places(trail, rule, halt, m + 1, n + [|trail(m + 1).0|])
  {
    var before, after := trail(m).0, trail(m + 1).0;
    var n' := n + [|after|];
    forall i | 0 <= i < |n'| - 1 ensures PlaceAt(after, n', rule, i) {
      if i < |n| - 1 {
        assert PlaceAt(before, n, rule, i);
        assert after[..n[i]] == before[..n[i]] && after[n[i]..n[i + 1]] == before[n[i]..n[i + 1]];
      } else {
        assert after[..n'[i]] == before && after[n'[i]..n'[i + 1]] == after[|before|..];
      }
    }
    forall i | 0 <= i < |n'| ensures Reached(trail, after, n', i) {
      if i < |n| {
        assert Reached(trail, before, n, i);
        assert after[..n[i]] == before[..n[i]];
      } else {
        assert after[..n'[i]] == after;
      }
    }
  }

  lemma {:induction false} WalkPlaces(trail: Trail, rule: Rule, halt: Halt, m: nat) returns (n: seq<nat>)
    requires WalksBy(trail, rule, halt, m)
    ensures Places(trail, rule, halt, m, n)
  {
    n := [0];
    if m > 0 {
      n := WalkPlaces(trail, rule, halt, m - 1);
      assert StepsBy(trail, rule, halt, m - 1);
      if trail(m).1 {
        PlacesStay(trail, rule, halt, m - 1, n);
      } else {
        PlacesGrow(trail, rule, halt, m - 1, n);
        n := n + [|trail(m).0|];
      }
    } else {
      assert Reached(trail, [], n, 0);
    }
  }

  // ---------------------------------------------------------------------------------------------
  // Open pass
  // ---------------------------------------------------------------------------------------------

  /** What a peer of the list leads to when its predecessors have left so much: a peer found with no channel, or
      with a closed one, is opened towards for the opening stake; an open channel below its threshold is topped
      up if that is affordable; any other peer is passed over. */
  ghost predicate OpenServes(made: seq<Attempt>, addr: Address, found: Option<Channel>, accepted: bool,
                             f: ResolvedFunding, left: int)
  {
    && left >= f.initial
    && made == if found.None? || found.value.status.Closed? then [Attempt(OpenTx, Peer(addr), f.initial, accepted)]
               else if found.value.status.Open? && found.value.balance < f.lowerThreshold && left >= f.topup then
                 [Attempt(FundTx, Chan(found.value.id), f.topup, accepted)]
               else []
  }

  ghost function OpenTrail(addrs: seq<Address>, found: seq<Option<Channel>>, answers: seq<bool>,
                           f: ResolvedFunding, budget: nat): Trail
    requires |addrs| == |found| == |answers|
  {
    (k: nat) =>
      if k <= |addrs| then
        var st := OpenFold(addrs[..k], found[..k], answers[..k], f, budget);
        (st.attempts, st.stopped)
      else ([], true)
  }

  ghost function OpenRule(addrs: seq<Address>, found: seq<Option<Channel>>, answers: seq<bool>,
                          f: ResolvedFunding, budget: nat): Rule
    requires |addrs| == |found| == |answers|
  {
    (before: seq<Attempt>, made: seq<Attempt>, i: nat) =>
      i < |addrs| && OpenServes(made, addrs[i], found[i], answers[i], f, budget - Spent(before))
  }

  ghost function OpenHalt(f: ResolvedFunding, budget: nat): Halt {
    (before: seq<Attempt>, i: nat) => budget - Spent(before) < f.initial
  }

  lemma OpenStepServes(st: OpenState, addr: Address, found: Option<Channel>, accepted: bool, f: ResolvedFunding)
    ensures var next := OpenStep(st, addr, found, f, accepted);
            if st.stopped then next == st
            else if next.stopped then next.attempts == st.attempts && st.budget < f.initial
            else && st.attempts <= next.attempts
                 && OpenServes(next.attempts[|st.attempts|..], addr, found, accepted, f, st.budget)
  {}

  lemma OpenStepsBy(addrs: seq<Address>, found: seq<Option<Channel>>, answers: seq<bool>,
                    f: ResolvedFunding, budget: nat, i: nat)
    requires i < |addrs| == |found| == |answers|
    ensures StepsBy(OpenTrail(addrs, found, answers, f, budget), OpenRule(addrs, found, answers, f, budget),
                    OpenHalt(f, budget), i)
  {
    hide OpenStep, OpenServes, Spent, OpenFold;
    var st := OpenFold(addrs[..i], found[..i], answers[..i], f, budget);
    OpenPassConserves(addrs[..i], found[..i], answers[..i], f, budget);
    OpenNext(addrs, found, answers[..i], answers[i], i, f, budget);
    assert answers[..i] + [answers[i]] == answers[..i + 1];
    OpenStepServes(st, addrs[i], found[i], answers[i], f);
  }

  /** What the open pass does with the list it is given: until it stops, every peer is served as its channel was
      found, in the order of the list; it stops exactly where what the peers before have left is below the opening
      stake. */
  lemma OpenPassServesTheList(addrs: seq<Address>, found: seq<Option<Channel>>, answers: seq<bool>,
                              f: ResolvedFunding, budget: nat)
    returns (st: OpenState, n: seq<nat>)
    requires |addrs| == |found| == |answers|
    ensures st == OpenFold(addrs, found, answers, f, budget)
    ensures 0 < |n| <= |addrs| + 1 && n[0] == 0 && n[|n| - 1] == |st.attempts|
    ensures forall i :: 0 <= i < |n| - 1 ==>
              PlaceAt(st.attempts, n, OpenRule(addrs, found, answers, f, budget), i)
    ensures st.stopped <==> |n| - 1 < |addrs|
    ensures st.stopped ==> budget - Spent(st.attempts) < f.initial
  {
    st := OpenFold(addrs, found, answers, f, budget);
    var trail, rule := OpenTrail(addrs, found, answers, f, budget), OpenRule(addrs, found, answers, f, budget);
    assert trail(0) == ([], false);
    assert addrs[..|addrs|] == addrs && found[..|addrs|] == found && answers[..|addrs|] == answers;
    hide OpenFold, OpenRule, StepsBy, PlaceAt, Reached;
    forall i: nat | i < |addrs| ensures StepsBy(trail, rule, OpenHalt(f, budget), i) {
      OpenStepsBy(addrs, found, answers, f, budget, i);
    }
    n := WalkPlaces(trail, rule, OpenHalt(f, budget), |addrs|);
  }

  /** A peer with an open channel below its threshold, met while what is left does not cover a top-up. */
  ghost predicate LeftShortAt(addrs: seq<Address>, found: seq<Option<Channel>>, answers: seq<bool>,
                              f: ResolvedFunding, budget: nat, i: nat)
    requires i < |addrs| == |found| == |answers|
  {
    var st := OpenFold(addrs[..i], found[..i], answers[..i], f, budget);
    && !st.stopped && st.budget >= f.initial && found[i].Some? && found[i].value.status.Open?
    && found[i].value.balance < f.lowerThreshold && st.budget < f.topup
  }

  /** The open pass falls short exactly when it stops, or meets a channel it would top up and cannot. */
  lemma {:induction false} OpenPassIsShort(addrs: seq<Address>, found: seq<Option<Channel>>, answers: seq<bool>,
                                           f: ResolvedFunding, budget: nat, m: nat)
    requires m <= |addrs| == |found| == |answers|
    ensures var st := OpenFold(addrs[..m], found[..m], answers[..m], f, budget);
            st.short <==> st.stopped || exists i :: 0 <= i < m && LeftShortAt(addrs, found, answers, f, budget, i)
  {
    if m > 0 {
      hide OpenFold;
      var k := m - 1;
      OpenPassIsShort(addrs, found, answers, f, budget, k);
      OpenNext(addrs, found, answers[..k], answers[k], k, f, budget);
      assert answers[..k] + [answers[k]] == answers[..m];
      assert LeftShortAt(addrs, found, answers, f, budget, k) ==>
        OpenFold(addrs[..m], found[..m], answers[..m], f, budget).short;
    } else {
      assert OpenFold(addrs[..0], found[..0], answers[..0], f, budget) == OpenState([], budget, false, false);
    }
  }

  // ---------------------------------------------------------------------------------------------
  // Fund pass
  // ---------------------------------------------------------------------------------------------

  /** What a channel of the worklist leads to when its predecessors have left so much: while the Safe is stranded,
      a channel below one ticket is left to consolidation; any other gets a whole top-up, or else the most
      whole tickets that what is left can pay, which is at least one. */
  ghost predicate FundServes(made: seq<Attempt>, c: Channel, accepted: bool, f: ResolvedFunding, stranded: bool,
                             left: int)
    requires f.face > 0
  {
    if stranded && c.balance < f.face then made == []
    else
      && |made| == 1
      && made[0].kind == FundTx && made[0].key == Chan(c.id) && made[0].accepted == accepted
      && made[0].amount > 0
      && (if left >= f.topup then made[0].amount == f.topup
          else made[0].amount <= left < made[0].amount + f.face && exists t: nat :: made[0].amount == t * f.face)
  }

  ghost function FundTrail(cs: seq<Channel>, answers: seq<bool>, f: ResolvedFunding, stranded: bool, budget: nat): Trail
    requires |cs| == |answers| && f.face > 0
  {
    (k: nat) =>
      if k <= |cs| then
        var st := FundFold(cs[..k], answers[..k], f, stranded, budget);
        (st.attempts, st.stopped)
      else ([], true)
  }

  ghost function FundRule(cs: seq<Channel>, answers: seq<bool>, f: ResolvedFunding, stranded: bool, budget: nat): Rule
    requires |cs| == |answers| && f.face > 0
  {
    (before: seq<Attempt>, made: seq<Attempt>, i: nat) =>
      i < |cs| && FundServes(made, cs[i], answers[i], f, stranded, budget - Spent(before))
  }

  ghost function FundHalt(cs: seq<Channel>, f: ResolvedFunding, stranded: bool, budget: nat): Halt {
    (before: seq<Attempt>, i: nat) =>
      && i < |cs| && !(stranded && cs[i].balance < f.face)
      && budget - Spent(before) < f.topup && budget - Spent(before) < f.face
  }

  lemma MostWholeTickets(safe: nat, f: ResolvedFunding)
    requires f.face > 0 && f.topup > 0
    ensures safe >= f.topup ==> FundAmount(safe, f) == f.topup
    ensures safe < f.topup ==> exists t: nat :: FundAmount(safe, f) == t * f.face
    ensures safe < f.topup ==> FundAmount(safe, f) <= safe < FundAmount(safe, f) + f.face
    ensures FundAmount(safe, f) == 0 <==> safe < f.topup && safe < f.face
  {
    LargestMultiple(safe, f.face);
  }

  lemma FundStepServes(st: FundState, c: Channel, accepted: bool, f: ResolvedFunding, stranded: bool)
    requires f.face > 0 && f.topup > 0
    ensures var next := FundStep(st, c, f, stranded, accepted);
            if st.stopped then next == st
            else if next.stopped then
              && next.attempts == st.attempts && !(stranded && c.balance < f.face)
              && st.budget < f.topup && st.budget < f.face
            else
              && st.attempts <= next.attempts
              && FundServes(next.attempts[|st.attempts|..], c, accepted, f, stranded, st.budget)
  {
    hide FundAmount;
    MostWholeTickets(st.budget, f);
  }

  lemma FundStepsBy(cs: seq<Channel>, answers: seq<bool>, f: ResolvedFunding, stranded: bool, budget: nat, i: nat)
    requires i < |cs| == |answers| && f.face > 0 && f.topup > 0
    ensures StepsBy(FundTrail(cs, answers, f, stranded, budget), FundRule(cs, answers, f, stranded, budget),
                    FundHalt(cs, f, stranded, budget), i)
  {
    hide FundStep, FundServes, Spent, FundFold, PaidInOrder;
    var st := FundFold(cs[..i], answers[..i], f, stranded, budget);
    FundPassConserves(cs[..i], answers[..i], f, stranded, budget);
    FundNext(cs, answers[..i], answers[i], i, f, stranded, budget);
    assert answers[..i] + [answers[i]] == answers[..i + 1];
    FundStepServes(st, cs[i], answers[i], f, stranded);
  }

  /** A channel is deferred while the walk goes on. */
  ghost predicate DefersAt(cs: seq<Channel>, answers: seq<bool>, f: ResolvedFunding, stranded: bool, budget: nat,
                           id: ChannelId, i: nat)
    requires i < |cs| == |answers| && f.face > 0
  {
    cs[i].id == id && stranded && cs[i].balance < f.face
    && !FundFold(cs[..i + 1], answers[..i + 1], f, stranded, budget).stopped
  }

  lemma {:induction false} FundDefers(cs: seq<Channel>, answers: seq<bool>, f: ResolvedFunding, stranded: bool,
                                      budget: nat, id: ChannelId, m: nat)
    requires m <= |cs| == |answers| && f.face > 0
    ensures id in FundFold(cs[..m], answers[..m], f, stranded, budget).deferred
       <==> exists i :: 0 <= i < m && DefersAt(cs, answers, f, stranded, budget, id, i)
  {
    if m > 0 {
      hide FundFold, FundStep;
      FundDefers(cs, answers, f, stranded, budget, id, m - 1);
      DefersNext(cs, answers, f, stranded, budget, id, m - 1);
    }
  }

  lemma DefersNext(cs: seq<Channel>, answers: seq<bool>, f: ResolvedFunding, stranded: bool, budget: nat,
                   id: ChannelId, k: nat)
    requires k < |cs| == |answers| && f.face > 0
    ensures id in FundFold(cs[..k + 1], answers[..k + 1], f, stranded, budget).deferred
       <==> || id in FundFold(cs[..k], answers[..k], f, stranded, budget).deferred
            || DefersAt(cs, answers, f, stranded, budget, id, k)
  {
    hide FundFold, FundAmount;
    FundNext(cs, answers[..k], answers[k], k, f, stranded, budget);
    assert answers[..k] + [answers[k]] == answers[..k + 1];
  }

  lemma {:induction false} FundIsShort(cs: seq<Channel>, answers: seq<bool>, f: ResolvedFunding, stranded: bool,
                                       budget: nat)
    requires |cs| == |answers| && f.face > 0
    ensures var st := FundFold(cs, answers, f, stranded, budget);
            st.short <==> st.stopped || exists k :: 0 <= k < |st.attempts| && st.attempts[k].amount < f.topup
  {
    if cs != [] {
      var k := |cs| - 1;
      FundIsShort(cs[..k], answers[..k], f, stranded, budget);
      hide FundAmount;
      var st, next := FundFold(cs[..k], answers[..k], f, stranded, budget), FundFold(cs, answers, f, stranded, budget);
      assert forall j :: 0 <= j < |st.attempts| ==> next.attempts[j] == st.attempts[j];
      if |next.attempts| > |st.attempts| {
        assert next.attempts[|st.attempts|].amount == FundAmount(st.budget, f);
      }
    }
  }

  /** What the fund pass does with its worklist: until it stops, every channel is served in the order of the list,
      and those left to consolidation are exactly the ones below one ticket while the Safe is stranded. It stops
      exactly where what is left pays neither a top-up nor a ticket, and falls short exactly when it stops or asks
      for less than a top-up. */
  lemma FundPassServesTheList(cs: seq<Channel>, answers: seq<bool>, f: ResolvedFunding, stranded: bool, budget: nat)
    returns (st: FundState, n: seq<nat>)
    requires |cs| == |answers| && f.face > 0 && f.topup > 0
    ensures st == FundFold(cs, answers, f, stranded, budget)
    ensures 0 < |n| <= |cs| + 1 && n[0] == 0 && n[|n| - 1] == |st.attempts|
    ensures forall i :: 0 <= i < |n| - 1 ==> PlaceAt(st.attempts, n, FundRule(cs, answers, f, stranded, budget), i)
    ensures forall id :: id in st.deferred <==>
              exists i :: 0 <= i < |n| - 1 && cs[i].id == id && stranded && cs[i].balance < f.face
    ensures st.stopped <==> |n| - 1 < |cs|
    ensures st.stopped ==> budget - Spent(st.attempts) < f.topup && budget - Spent(st.attempts) < f.face
    ensures st.stopped ==> !(stranded && cs[|n| - 1].balance < f.face)
    ensures st.short <==> st.stopped || exists k :: 0 <= k < |st.attempts| && st.attempts[k].amount < f.topup
  {
    n := FundPlaces(cs, answers, f, stranded, budget);
    st := FundFold(cs, answers, f, stranded, budget);
    hide FundFold, FundTrail, FundRule, PlaceAt, Reached, Spent;
    FundIsShort(cs, answers, f, stranded, budget);
    FundDeferredKnown(cs, answers, f, stranded, budget, n);
  }

  lemma FundPlaces(cs: seq<Channel>, answers: seq<bool>, f: ResolvedFunding, stranded: bool, budget: nat)
    returns (n: seq<nat>)
    requires |cs| == |answers| && f.face > 0 && f.topup > 0
    ensures var st, trail := FundFold(cs, answers, f, stranded, budget), FundTrail(cs, answers, f, stranded, budget);
            && trail(|cs|) == (st.attempts, st.stopped)
            && Places(trail, FundRule(cs, answers, f, stranded, budget), FundHalt(cs, f, stranded, budget), |cs|, n)
  {
    var trail, rule := FundTrail(cs, answers, f, stranded, budget), FundRule(cs, answers, f, stranded, budget);
    assert trail(0) == ([], false);
    assert cs[..|cs|] == cs && answers[..|cs|] == answers;
    hide FundFold, FundRule, Places, StepsBy;
    forall i: nat | i < |cs| ensures StepsBy(trail, rule, FundHalt(cs, f, stranded, budget), i) {
      FundStepsBy(cs, answers, f, stranded, budget, i);
    }
    n := WalkPlaces(trail, rule, FundHalt(cs, f, stranded, budget), |cs|);
  }

  lemma FundDeferredKnown(cs: seq<Channel>, answers: seq<bool>, f: ResolvedFunding, stranded: bool, budget: nat,
                          n: seq<nat>)
    requires |cs| == |answers| && f.face > 0
    requires Places(FundTrail(cs, answers, f, stranded, budget), FundRule(cs, answers, f, stranded, budget),
                    FundHalt(cs, f, stranded, budget), |cs|, n)
    ensures forall id :: id in FundFold(cs, answers, f, stranded, budget).deferred <==>
              exists i :: 0 <= i < |n| - 1 && cs[i].id == id && stranded && cs[i].balance < f.face
  {
    assert cs[..|cs|] == cs && answers[..|cs|] == answers;
    var trail := FundTrail(cs, answers, f, stranded, budget);
    forall k: nat | k <= |cs|
      ensures FundFold(cs[..k], answers[..k], f, stranded, budget).stopped <==> k >= |n|
    {
      assert trail(k).1 == FundFold(cs[..k], answers[..k], f, stranded, budget).stopped;
      assert k < |n| ==> Reached(trail, trail(|cs|).0, n, k);
    }
    hide FundFold, Places, FundTrail;
    forall id ensures id in FundFold(cs, answers, f, stranded, budget).deferred <==>
              exists i :: 0 <= i < |n| - 1 && cs[i].id == id && stranded && cs[i].balance < f.face
    {
      FundDefers(cs, answers, f, stranded, budget, id, |cs|);
      if i :| 0 <= i < |n| - 1 && cs[i].id == id && stranded && cs[i].balance < f.face {
        assert DefersAt(cs, answers, f, stranded, budget, id, i);
      }
    }
  }

  // ---------------------------------------------------------------------------------------------
  // Regular close pass
  // ---------------------------------------------------------------------------------------------

  /** Another closure may be asked for when so many are in flight, so many of them granted by this pass. */
  ghost predicate MayClose(g: CloseGuards, inFlight: nat, granted: nat) {
    && inFlight < g.maxConcurrent && g.openCount - inFlight > g.minOpen
    && (g.perTickCap.Some? ==> granted < g.perTickCap.value)
  }

  /** What an entry of the list leads to: one closure, unless it is no channel of this node, has a slot taken, or
      connected peers are shielded and its own is not a disconnected one. */
  ghost predicate CloseServes(made: seq<Attempt>, id: ChannelId, g: CloseGuards, answer: CloseAnswer) {
    made == if id in g.known && !answer.busy && (g.phase == ShieldingConnected ==> id in g.disconnected)
            then [Attempt(CloseTx, Chan(id), 0, answer.accepted)]
            else []
  }

  ghost function CloseTrail(ids: seq<ChannelId>, answers: seq<CloseAnswer>, g: CloseGuards, closeCount: nat): Trail
    requires |ids| == |answers|
  {
    (k: nat) =>
      if k <= |ids| then
        var st := CloseFold(ids[..k], answers[..k], g, closeCount);
        (st.attempts, st.stopped)
      else ([], true)
  }

  ghost function CloseRule(ids: seq<ChannelId>, answers: seq<CloseAnswer>, g: CloseGuards, closeCount: nat): Rule
    requires |ids| == |answers|
  {
    (before: seq<Attempt>, made: seq<Attempt>, i: nat) =>
      && i < |ids| && MayClose(g, closeCount + AcceptedCount(before), AcceptedCount(before))
      && CloseServes(made, ids[i], g, answers[i])
  }

  ghost function CloseHalt(g: CloseGuards, closeCount: nat): Halt {
    (before: seq<Attempt>, i: nat) => !MayClose(g, closeCount + AcceptedCount(before), AcceptedCount(before))
  }

  lemma CloseStepsBy(ids: seq<ChannelId>, answers: seq<CloseAnswer>, g: CloseGuards, closeCount: nat, i: nat)
    requires i < |ids| == |answers|
    ensures StepsBy(CloseTrail(ids, answers, g, closeCount), CloseRule(ids, answers, g, closeCount),
                    CloseHalt(g, closeCount), i)
  {
    hide CloseFold, AcceptedCount, Spent;
    ClosePassIsGuarded(ids[..i], answers[..i], g, closeCount);
    CloseNext(ids, answers[..i], answers[i], i, g, closeCount);
    assert answers[..i] + [answers[i]] == answers[..i + 1];
  }

  /** What the regular close pass does with its list: until it stops, every entry is served in the order of the
      list; it stops exactly where the closures in flight or granted no longer allow another one. */
  lemma ClosePassServesTheList(ids: seq<ChannelId>, answers: seq<CloseAnswer>, g: CloseGuards, closeCount: nat)
    returns (st: CloseState, n: seq<nat>)
    requires |ids| == |answers|
    ensures st == CloseFold(ids, answers, g, closeCount)
    ensures 0 < |n| <= |ids| + 1 && n[0] == 0 && n[|n| - 1] == |st.attempts|
    ensures forall i :: 0 <= i < |n| - 1 ==> PlaceAt(st.attempts, n, CloseRule(ids, answers, g, closeCount), i)
    ensures st.stopped <==> |n| - 1 < |ids|
    ensures st.stopped ==> !MayClose(g, closeCount + AcceptedCount(st.attempts), AcceptedCount(st.attempts))
  {
    st := CloseFold(ids, answers, g, closeCount);
    var trail, rule := CloseTrail(ids, answers, g, closeCount), CloseRule(ids, answers, g, closeCount);
    assert trail(0) == ([], false);
    assert ids[..|ids|] == ids && answers[..|ids|] == answers;
    hide CloseFold, CloseRule, StepsBy, PlaceAt, Reached;
    forall i: nat | i < |ids| ensures StepsBy(trail, rule, CloseHalt(g, closeCount), i) {
      CloseStepsBy(ids, answers, g, closeCount, i);
    }
    n := WalkPlaces(trail, rule, CloseHalt(g, closeCount), |ids|);
  }

  // ---------------------------------------------------------------------------------------------
  // Consolidation
  // ---------------------------------------------------------------------------------------------

  /** Attempt `i` is the closure of `id`, asked for while the cap had room. */
  ghost predicate ClosesNext(attempts: seq<Attempt>, i: nat, id: ChannelId, accepted: bool, closeCount: nat, cap: nat)
    requires i < |attempts|
  {
    closeCount + AcceptedCount(attempts[..i]) < cap && attempts[i] == Attempt(CloseTx, Chan(id), 0, accepted)
  }

  lemma ClosesNextStays(attempts: seq<Attempt>, a: Attempt, i: nat, id: ChannelId, accepted: bool,
                        closeCount: nat, cap: nat)
    requires i < |attempts| && ClosesNext(attempts, i, id, accepted, closeCount, cap)
    ensures ClosesNext(attempts + [a], i, id, accepted, closeCount, cap)
  {
    assert (attempts + [a])[..i] == attempts[..i];
  }

  /** Consolidation asks for its closures in order, and leaves off exactly where the cap is reached. */
  lemma {:induction false} ReclaimPassServesTheList(ids: seq<ChannelId>, answers: seq<bool>, closeCount: nat, cap: nat)
    requires |ids| == |answers|
    ensures var st := ReclaimFold(ids, answers, closeCount, cap);
            && |st.attempts| <= |ids| && (st.stopped <==> |st.attempts| < |ids|)
            && (forall i :: 0 <= i < |st.attempts| ==> ClosesNext(st.attempts, i, ids[i], answers[i], closeCount, cap))
            && (st.stopped ==> closeCount + AcceptedCount(st.attempts) >= cap)
  {
    if ids != [] {
      var k := |ids| - 1;
      ReclaimPassServesTheList(ids[..k], answers[..k], closeCount, cap);
      ReclaimRespectsTheCap(ids[..k], answers[..k], closeCount, cap);
      var st := ReclaimFold(ids[..k], answers[..k], closeCount, cap);
      var a := Attempt(CloseTx, Chan(ids[k]), 0, answers[k]);
      assert (st.attempts + [a])[..|st.attempts|] == st.attempts;
      hide AcceptedCount, Spent;
      forall i | 0 <= i < |st.attempts|
        ensures ClosesNext(st.attempts + [a], i, ids[i], answers[i], closeCount, cap)
        ensures ClosesNext(st.attempts, i, ids[i], answers[i], closeCount, cap)
      {
        assert ids[..k][i] == ids[i] && answers[..k][i] == answers[i];
        ClosesNextStays(st.attempts, a, i, ids[i], answers[i], closeCount, cap);
      }
    }
  }

  /** What a survivor leads to when its predecessors have left so much: exactly what it lacks. */
  ghost predicate TopUpServes(made: seq<Attempt>, c: Channel, accepted: bool, face: nat, left: int) {
    && c.balance + left >= face
    && made == if c.balance >= face then [] else [Attempt(FundTx, Chan(c.id), face - c.balance, accepted)]
  }

  ghost function TopUpTrail(cs: seq<Channel>, answers: seq<bool>, face: nat, budget: nat): Trail
    requires |cs| == |answers|
  {
    (k: nat) =>
      if k <= |cs| then
        var st := TopUpFold(cs[..k], answers[..k], face, budget);
        (st.attempts, st.stopped)
      else ([], true)
  }

  ghost function TopUpRule(cs: seq<Channel>, answers: seq<bool>, face: nat, budget: nat): Rule
    requires |cs| == |answers|
  {
    (before: seq<Attempt>, made: seq<Attempt>, i: nat) =>
      i < |cs| && TopUpServes(made, cs[i], answers[i], face, budget - Spent(before))
  }

  ghost function TopUpHalt(cs: seq<Channel>, face: nat, budget: nat): Halt {
    (before: seq<Attempt>, i: nat) => i < |cs| && cs[i].balance + budget - Spent(before) < face
  }

  lemma TopUpStepServes(st: TopUpState, c: Channel, accepted: bool, face: nat)
    ensures var next := TopUpStep(st, c, face, accepted);
            if st.stopped then next == st
            else if next.stopped then next.attempts == st.attempts && c.balance + st.budget < face
            else && st.attempts <= next.attempts
                 && TopUpServes(next.attempts[|st.attempts|..], c, accepted, face, st.budget)
  {}

  lemma TopUpStepsBy(cs: seq<Channel>, answers: seq<bool>, face: nat, budget: nat, i: nat)
    requires i < |cs| == |answers|
    ensures StepsBy(TopUpTrail(cs, answers, face, budget), TopUpRule(cs, answers, face, budget),
                    TopUpHalt(cs, face, budget), i)
  {
    hide TopUpFold, TopUpStep, TopUpServes, Spent, RaisesOneOf;
    TopUpConserves(cs[..i], answers[..i], face, budget);
    TopUpNext(cs, answers[..i], answers[i], i, face, budget);
    assert answers[..i] + [answers[i]] == answers[..i + 1];
    TopUpStepServes(TopUpFold(cs[..i], answers[..i], face, budget), cs[i], answers[i], face);
  }

  /** What the top-ups do with the survivors: until they stop, every one is raised to face value in the order of the
      list; they stop exactly where what is left does not cover what a survivor lacks. */
  lemma TopUpPassServesTheList(cs: seq<Channel>, answers: seq<bool>, face: nat, budget: nat)
    returns (st: TopUpState, n: seq<nat>)
    requires |cs| == |answers|
    ensures st == TopUpFold(cs, answers, face, budget)
    ensures 0 < |n| <= |cs| + 1 && n[0] == 0 && n[|n| - 1] == |st.attempts|
    ensures forall i :: 0 <= i < |n| - 1 ==> PlaceAt(st.attempts, n, TopUpRule(cs, answers, face, budget), i)
    ensures st.stopped <==> |n| - 1 < |cs|
    ensures st.stopped ==> cs[|n| - 1].balance + budget - Spent(st.attempts) < face
    ensures st.short <==> st.stopped
  {
    st := TopUpFold(cs, answers, face, budget);
    TopUpIsShort(cs, answers, face, budget);
    var trail, rule := TopUpTrail(cs, answers, face, budget), TopUpRule(cs, answers, face, budget);
    assert trail(0) == ([], false);
    assert cs[..|cs|] == cs && answers[..|cs|] == answers;
    hide TopUpFold, TopUpRule, StepsBy, PlaceAt, Reached;
    forall i: nat | i < |cs| ensures StepsBy(trail, rule, TopUpHalt(cs, face, budget), i) {
      TopUpStepsBy(cs, answers, face, budget, i);
    }
    n := WalkPlaces(trail, rule, TopUpHalt(cs, face, budget), |cs|);
  }

  lemma {:induction false} TopUpIsShort(cs: seq<Channel>, answers: seq<bool>, face: nat, budget: nat)
    requires |cs| == |answers|
    ensures TopUpFold(cs, answers, face, budget).short <==> TopUpFold(cs, answers, face, budget).stopped
  {
    if cs != [] {
      TopUpIsShort(cs[..|cs| - 1], answers[..|cs| - 1], face, budget);
    }
  }

  // ---------------------------------------------------------------------------------------------
  // Finalize pass
  // ---------------------------------------------------------------------------------------------

  /** What a channel leads to: one finalization, unless its slot is taken or its notice period has not been over
      for long enough. */
  ghost predicate FinalizeServes(made: seq<Attempt>, c: Channel, wallClock: nat, overdue: nat, answer: CloseAnswer) {
    made == if !answer.busy && c.status.PendingToClose? && c.status.closureTime + overdue <= wallClock
            then [Attempt(FinalizeTx, Chan(c.id), 0, answer.accepted)]
            else []
  }

  ghost function FinalizeTrail(cs: seq<Channel>, answers: seq<CloseAnswer>, cap: nat, wallClock: nat, overdue: nat,
                               count: nat): Trail
    requires |cs| == |answers|
  {
    (k: nat) =>
      if k <= |cs| then
        var st := FinalizeFold(cs[..k], answers[..k], cap, wallClock, overdue, count);
        (st.attempts, st.stopped)
      else ([], true)
  }

  ghost function FinalizeRule(cs: seq<Channel>, answers: seq<CloseAnswer>, cap: nat, wallClock: nat, overdue: nat,
                              count: nat): Rule
    requires |cs| == |answers|
  {
    (before: seq<Attempt>, made: seq<Attempt>, i: nat) =>
      && i < |cs| && count + AcceptedCount(before) < cap
      && FinalizeServes(made, cs[i], wallClock, overdue, answers[i])
  }

  ghost function FinalizeHalt(cap: nat, count: nat): Halt {
    (before: seq<Attempt>, i: nat) => count + AcceptedCount(before) >= cap
  }

  lemma FinalizeStepsBy(cs: seq<Channel>, answers: seq<CloseAnswer>, cap: nat, wallClock: nat, overdue: nat,
                        count: nat, i: nat)
    requires i < |cs| == |answers|
    ensures StepsBy(FinalizeTrail(cs, answers, cap, wallClock, overdue, count),
                    FinalizeRule(cs, answers, cap, wallClock, overdue, count), FinalizeHalt(cap, count), i)
  {
    hide FinalizeFold, AcceptedCount, Spent, AllAskFor;
    FinalizePassIsGuarded(cs[..i], answers[..i], cap, wallClock, overdue, count);
    FinalizeNext(cs, answers[..i], answers[i], i, cap, wallClock, overdue, count);
    assert answers[..i] + [answers[i]] == answers[..i + 1];
  }

  /** What the finalize pass does with the channel list: until it stops, every channel is served in the order of the
      list; it stops exactly where the finalizations in flight reach their cap. */
  lemma FinalizePassServesTheList(cs: seq<Channel>, answers: seq<CloseAnswer>, cap: nat, wallClock: nat, overdue: nat,
                                  count: nat)
    returns (st: FinalizeState, n: seq<nat>)
    requires |cs| == |answers|
    ensures st == FinalizeFold(cs, answers, cap, wallClock, overdue, count)
    ensures 0 < |n| <= |cs| + 1 && n[0] == 0 && n[|n| - 1] == |st.attempts|
    ensures forall i :: 0 <= i < |n| - 1 ==>
              PlaceAt(st.attempts, n, FinalizeRule(cs, answers, cap, wallClock, overdue, count), i)
    ensures st.stopped <==> |n| - 1 < |cs|
    ensures st.stopped ==> count + AcceptedCount(st.attempts) >= cap
  {
    st := FinalizeFold(cs, answers, cap, wallClock, overdue, count);
    var trail := FinalizeTrail(cs, answers, cap, wallClock, overdue, count);
    var rule := FinalizeRule(cs, answers, cap, wallClock, overdue, count);
    assert trail(0) == ([], false);
    assert cs[..|cs|] == cs && answers[..|cs|] == answers;
    hide FinalizeFold, FinalizeRule, StepsBy, PlaceAt, Reached;
    forall i: nat | i < |cs| ensures StepsBy(trail, rule, FinalizeHalt(cap, count), i) {
      FinalizeStepsBy(cs, answers, cap, wallClock, overdue, count, i);
    }
    n := WalkPlaces(trail, rule, FinalizeHalt(cap, count), |cs|);
  }
}
