/**
 The five passes of a tick as functions of what they read and of the answers their dispatches get.
 Each pass walks a list, folds one candidate after another into its counters, and stops early where
 the pipeline breaks out of its loop.
 */
module Passes {
  import opened Common
  import opened Sizing

  datatype Status = Open | PendingToClose(closureTime: nat) | Closed

  datatype Channel = Channel(id: ChannelId, destination: Address, balance: nat, status: Status)

  datatype Kind = OpenTx | FundTx | CloseTx | FinalizeTx

  datatype Key = Peer(addr: Address) | Chan(id: ChannelId)

  /** One request to dispatch a chain write, and whether a slot was granted for it. */
  datatype Attempt = Attempt(kind: Kind, key: Key, amount: nat, accepted: bool)

  /** Stake committed by the accepted attempts. */
  function Spent(attempts: seq<Attempt>): nat {
    if attempts == [] then 0
    else
      var last := attempts[|attempts| - 1];
      Spent(attempts[..|attempts| - 1]) + if last.accepted then last.amount else 0
  }

  function AcceptedCount(attempts: seq<Attempt>): nat {
    if attempts == [] then 0
    else AcceptedCount(attempts[..|attempts| - 1]) + if attempts[|attempts| - 1].accepted then 1 else 0
  }

  lemma AttemptSnoc(attempts: seq<Attempt>, a: Attempt)
    ensures Spent(attempts + [a]) == Spent(attempts) + if a.accepted then a.amount else 0
    ensures AcceptedCount(attempts + [a]) == AcceptedCount(attempts) + if a.accepted then 1 else 0
  {
    assert (attempts + [a])[..|attempts|] == attempts;
  }

  lemma {:induction false} SpentAppend(a: seq<Attempt>, b: seq<Attempt>)
    ensures Spent(a + b) == Spent(a) + Spent(b)
  {
    if b == [] {
      assert a + b == a;
    } else {
      var front := b[..|b| - 1];
      SpentAppend(a, front);
      assert a + b == (a + front) + [b[|b| - 1]];
      AttemptSnoc(a + front, b[|b| - 1]);
    }
  }

  // ---------------------------------------------------------------------------------------------
  // Fund pass
  // ---------------------------------------------------------------------------------------------

  const BY_BALANCE: Channel -> real := (c: Channel) => c.balance as real

  datatype FundState = FundState(attempts: seq<Attempt>, deferred: set<ChannelId>, budget: nat, short: bool,
                                 stopped: bool)

  function FundStep(st: FundState, c: Channel, f: ResolvedFunding, stranded: bool, accepted: bool): FundState
    requires f.face > 0
  {
    if st.stopped then st
    else if stranded && c.balance < f.face then st.(deferred := st.deferred + {c.id})
    else
      var amount := FundAmount(st.budget, f);
      if amount == 0 then st.(short := true, stopped := true)
      else st.(attempts := st.attempts + [Attempt(FundTx, Chan(c.id), amount, accepted)],
               budget := if accepted then st.budget - amount else st.budget,
               short := st.short || amount < f.topup)
  }

  function FundFold(cs: seq<Channel>, answers: seq<bool>, f: ResolvedFunding, stranded: bool, budget: nat): FundState
    requires |cs| == |answers| && f.face > 0
  {
    if cs == [] then FundState([], {}, budget, false, false)
    else
      var n := |cs| - 1;
      FundStep(FundFold(cs[..n], answers[..n], f, stranded, budget), cs[n], f, stranded, answers[n])
  }

  /** Every attempt so far asked for the most whole tickets the budget left by its predecessors allowed. */
  ghost predicate PaidInOrder(attempts: seq<Attempt>, budget: nat, f: ResolvedFunding)
    requires f.face > 0
  {
    forall i :: 0 <= i < |attempts| ==>
      && Spent(attempts[..i]) <= budget
      && attempts[i].amount == FundAmount(budget - Spent(attempts[..i]), f)
      && attempts[i].amount > 0
  }

  lemma PaidInOrderSnoc(attempts: seq<Attempt>, a: Attempt, budget: nat, f: ResolvedFunding)
    requires f.face > 0 && PaidInOrder(attempts, budget, f) && Spent(attempts) <= budget
    requires a.amount == FundAmount(budget - Spent(attempts), f) && a.amount > 0
    ensures PaidInOrder(attempts + [a], budget, f)
  {
    hide Spent, FundAmount;
    var next := attempts + [a];
    assert next[..|attempts|] == attempts;
    assert forall i :: 0 <= i < |attempts| ==> next[..i] == attempts[..i] && next[i] == attempts[i];
  }

  /** The attempt is for one of `cs` that satisfies `ok`. */
  ghost predicate AsksFor(a: Attempt, kind: Kind, cs: seq<Channel>, ok: Channel -> bool) {
    a.kind == kind && exists i :: 0 <= i < |cs| && a.key == Chan(cs[i].id) && ok(cs[i])
  }

  ghost predicate AllAskFor(attempts: seq<Attempt>, kind: Kind, cs: seq<Channel>, ok: Channel -> bool) {
    forall i :: 0 <= i < |attempts| ==> AsksFor(attempts[i], kind, cs, ok)
  }

  lemma AllAskForMore(attempts: seq<Attempt>, kind: Kind, cs: seq<Channel>, ok: Channel -> bool, c: Channel)
    requires AllAskFor(attempts, kind, cs, ok)
    ensures AllAskFor(attempts, kind, cs + [c], ok)
    ensures forall a: Attempt :: a.kind == kind && a.key == Chan(c.id) && ok(c) ==>
              AllAskFor(attempts + [a], kind, cs + [c], ok)
  {
    var more := cs + [c];
    assert more[|cs|] == c;
    forall i | 0 <= i < |attempts| ensures AsksFor(attempts[i], kind, more, ok) {
      assert AsksFor(attempts[i], kind, cs, ok);
      var m :| 0 <= m < |cs| && attempts[i].key == Chan(cs[m].id) && ok(cs[m]);
      assert more[m] == cs[m];
    }
  }

  lemma FundStepConserves(st: FundState, c: Channel, f: ResolvedFunding, stranded: bool, accepted: bool, budget: nat)
    requires f.face > 0 && st.budget + Spent(st.attempts) == budget && PaidInOrder(st.attempts, budget, f)
    ensures var next := FundStep(st, c, f, stranded, accepted);
            next.budget + Spent(next.attempts) == budget && PaidInOrder(next.attempts, budget, f)
  {
    hide Spent, FundAmount, PaidInOrder;
    var a := Attempt(FundTx, Chan(c.id), FundAmount(st.budget, f), accepted);
    AttemptSnoc(st.attempts, a);
    if a.amount > 0 {
      PaidInOrderSnoc(st.attempts, a, budget, f);
    }
  }

  /** The fund pass never overspends: what it committed and what is left add up to what it started
      with, and each attempt asks for the most whole tickets its predecessors left affordable. */
  lemma {:induction false} FundPassConserves(cs: seq<Channel>, answers: seq<bool>,
                                             f: ResolvedFunding, stranded: bool, budget: nat)
    requires |cs| == |answers| && f.face > 0
    ensures var st := FundFold(cs, answers, f, stranded, budget);
            st.budget + Spent(st.attempts) == budget && PaidInOrder(st.attempts, budget, f)
  {
    if cs != [] {
      var n := |cs| - 1;
      hide Spent, PaidInOrder, FundStep;
      FundPassConserves(cs[..n], answers[..n], f, stranded, budget);
      FundStepConserves(FundFold(cs[..n], answers[..n], f, stranded, budget), cs[n], f, stranded, answers[n], budget);
    }
  }

  /** A channel the pass leaves to consolidation: the Safe is stranded and the channel cannot issue a ticket. */
  function IsDeferred(f: ResolvedFunding, stranded: bool): Channel -> bool {
    (c: Channel) => stranded && c.balance < f.face
  }

  ghost predicate AllDeferred(ids: set<ChannelId>, cs: seq<Channel>, ok: Channel -> bool) {
    forall id :: id in ids ==> exists i :: 0 <= i < |cs| && cs[i].id == id && ok(cs[i])
  }

  lemma AllDeferredMore(ids: set<ChannelId>, cs: seq<Channel>, ok: Channel -> bool, c: Channel)
    requires AllDeferred(ids, cs, ok)
    ensures AllDeferred(ids, cs + [c], ok)
    ensures ok(c) ==> AllDeferred(ids + {c.id}, cs + [c], ok)
  {
    var more := cs + [c];
    assert more[|cs|] == c;
    forall id | id in ids ensures exists i :: 0 <= i < |more| && more[i].id == id && ok(more[i]) {
      var m :| 0 <= m < |cs| && cs[m].id == id && ok(cs[m]);
      assert more[m] == cs[m];
    }
  }

  /** The pass defers only under-funded channels of a stranded Safe. */
  lemma {:induction false} FundPassTargets(cs: seq<Channel>, answers: seq<bool>,
                                           f: ResolvedFunding, stranded: bool, budget: nat)
    requires |cs| == |answers| && f.face > 0
    ensures AllDeferred(FundFold(cs, answers, f, stranded, budget).deferred, cs, IsDeferred(f, stranded))
  {
    if cs != [] {
      hide AllDeferred, FundAmount;
      var n := |cs| - 1;
      FundPassTargets(cs[..n], answers[..n], f, stranded, budget);
      var st := FundFold(cs[..n], answers[..n], f, stranded, budget);
      assert cs == cs[..n] + [cs[n]];
      AllDeferredMore(st.deferred, cs[..n], IsDeferred(f, stranded), cs[n]);
    } else {
      assert AllDeferred({}, cs, IsDeferred(f, stranded));
    }
  }

  lemma LastOfFilter(cs: seq<Channel>, keep: Channel -> bool)
    requires cs != []
    ensures Filter(cs, keep) == Filter(cs[..|cs| - 1], keep) + if keep(cs[|cs| - 1]) then [cs[|cs| - 1]] else []
  {
    var n := |cs| - 1;
    var front, last := cs[..n], cs[n];
    assert cs == front + [last];
    assert Filter([last], keep) == if keep(last) then [last] else [] by {
      assert [last][1..] == [];
    }
    hide Filter;
    FilterAppend(front, [last], keep);
  }

  // ---------------------------------------------------------------------------------------------
  // Consolidation: closures, then top-ups to exactly face value
  // ---------------------------------------------------------------------------------------------

  datatype ReclaimState = ReclaimState(attempts: seq<Attempt>, closeCount: nat, stopped: bool)

  function ReclaimStep(st: ReclaimState, id: ChannelId, cap: nat, accepted: bool): ReclaimState {
    if st.stopped then st
    else if st.closeCount >= cap then st.(stopped := true)
    else st.(attempts := st.attempts + [Attempt(CloseTx, Chan(id), 0, accepted)],
             closeCount := if accepted then st.closeCount + 1 else st.closeCount)
  }

  function ReclaimFold(ids: seq<ChannelId>, answers: seq<bool>, closeCount: nat, cap: nat): ReclaimState
    requires |ids| == |answers|
  {
    if ids == [] then ReclaimState([], closeCount, false)
    else
      var n := |ids| - 1;
      ReclaimStep(ReclaimFold(ids[..n], answers[..n], closeCount, cap), ids[n], cap, answers[n])
  }

  /** Consolidation closures are asked for in the decision's order and respect the closure cap. */
  lemma {:induction false} ReclaimRespectsTheCap(ids: seq<ChannelId>, answers: seq<bool>, closeCount: nat, cap: nat)
    requires |ids| == |answers|
    ensures var st := ReclaimFold(ids, answers, closeCount, cap);
            && st.closeCount == closeCount + AcceptedCount(st.attempts)
            && (AcceptedCount(st.attempts) > 0 ==> st.closeCount <= cap)
            && Spent(st.attempts) == 0
            && |st.attempts| <= |ids|
            && (forall i :: 0 <= i < |st.attempts| ==> st.attempts[i] == Attempt(CloseTx, Chan(ids[i]), 0, answers[i]))
            && (!st.stopped ==> |st.attempts| == |ids|)
  {
    if ids != [] {
      var n := |ids| - 1;
      ReclaimRespectsTheCap(ids[..n], answers[..n], closeCount, cap);
      var st := ReclaimFold(ids[..n], answers[..n], closeCount, cap);
      AttemptSnoc(st.attempts, Attempt(CloseTx, Chan(ids[n]), 0, answers[n]));
    }
  }

  const BY_BALANCE_DESC: Channel -> real := (c: Channel) => -(c.balance as real)

  datatype TopUpState = TopUpState(attempts: seq<Attempt>, budget: nat, short: bool, stopped: bool)

  /** What raising a channel to face value takes; a balance above face value takes nothing. */
  function Missing(c: Channel, face: nat): nat {
    if c.balance >= face then 0 else face - c.balance
  }

  function TopUpStep(st: TopUpState, c: Channel, face: nat, accepted: bool): TopUpState {
    if st.stopped then st
    else if Missing(c, face) == 0 then st
    else if st.budget < Missing(c, face) then st.(short := true, stopped := true)
    else st.(attempts := st.attempts + [Attempt(FundTx, Chan(c.id), Missing(c, face), accepted)],
             budget := if accepted then st.budget - Missing(c, face) else st.budget)
  }

  function TopUpFold(cs: seq<Channel>, answers: seq<bool>, face: nat, budget: nat): TopUpState
    requires |cs| == |answers|
  {
    if cs == [] then TopUpState([], budget, false, false)
    else
      var n := |cs| - 1;
      TopUpStep(TopUpFold(cs[..n], answers[..n], face, budget), cs[n], face, answers[n])
  }

  /** Every attempt raises its channel to exactly face value. */
  ghost predicate RaisesOneOf(a: Attempt, cs: seq<Channel>, face: nat) {
    && a.kind == FundTx && a.amount > 0
    && exists i :: 0 <= i < |cs| && a.key == Chan(cs[i].id) && cs[i].balance + a.amount == face
  }

  lemma {:induction false} TopUpConserves(cs: seq<Channel>, answers: seq<bool>, face: nat, budget: nat)
    requires |cs| == |answers|
    ensures var st := TopUpFold(cs, answers, face, budget);
            && st.budget + Spent(st.attempts) == budget
            && (forall i :: 0 <= i < |st.attempts| ==> RaisesOneOf(st.attempts[i], cs, face))
  {
    if cs != [] {
      hide Spent, RaisesOneOf;
      var n := |cs| - 1;
      TopUpConserves(cs[..n], answers[..n], face, budget);
      var st := TopUpFold(cs[..n], answers[..n], face, budget);
      var a := Attempt(FundTx, Chan(cs[n].id), Missing(cs[n], face), answers[n]);
      AttemptSnoc(st.attempts, a);
      RaisesMore(st.attempts, a, cs, face);
    }
  }

  lemma RaisesMore(attempts: seq<Attempt>, a: Attempt, cs: seq<Channel>, face: nat)
    requires cs != [] && a.kind == FundTx && a.key == Chan(cs[|cs| - 1].id) && a.amount == Missing(cs[|cs| - 1], face)
    requires forall i :: 0 <= i < |attempts| ==> RaisesOneOf(attempts[i], cs[..|cs| - 1], face)
    ensures forall i :: 0 <= i < |attempts| ==> RaisesOneOf(attempts[i], cs, face)
    ensures a.amount > 0 ==> RaisesOneOf(a, cs, face)
  {
    var n := |cs| - 1;
    forall i | 0 <= i < |attempts| ensures RaisesOneOf(attempts[i], cs, face) {
      assert RaisesOneOf(attempts[i], cs[..n], face);
      var m :| 0 <= m < n && attempts[i].key == Chan(cs[..n][m].id) && cs[..n][m].balance + attempts[i].amount == face;
      assert cs[..n][m] == cs[m];
    }
    assert a.key == Chan(cs[n].id);
  }

  /** What raising every one of `cs` takes. */
  function TotalMissing(cs: seq<Channel>, face: nat): nat {
    if cs == [] then 0 else TotalMissing(cs[..|cs| - 1], face) + Missing(cs[|cs| - 1], face)
  }

  lemma {:induction false} TotalMissingGrows(cs: seq<Channel>, m: nat, face: nat)
    requires m <= |cs|
    ensures TotalMissing(cs[..m], face) <= TotalMissing(cs, face)
    decreases |cs|
  {
    if m < |cs| {
      TotalMissingGrows(cs[..|cs| - 1], m, face);
      assert cs[..|cs| - 1][..m] == cs[..m];
    } else {
      assert cs[..m] == cs;
    }
  }

  lemma TotalMissingSnoc(front: seq<Channel>, last: Channel, face: nat)
    ensures TotalMissing(front + [last], face) == TotalMissing(front, face) + Missing(last, face)
  {
    assert (front + [last])[..|front|] == front;
  }

  lemma TotalMissingNext(cs: seq<Channel>, m: nat, face: nat)
    requires m < |cs|
    ensures TotalMissing(cs[..m + 1], face) == TotalMissing(cs[..m], face) + Missing(cs[m], face)
  {
    assert cs[..m + 1][..m] == cs[..m];
  }

  lemma LaterCostsMore(cs: seq<Channel>, i: nat, j: nat, face: nat)
    requires Sorted(cs, BY_BALANCE_DESC) && i <= j < |cs|
    ensures Missing(cs[i], face) <= Missing(cs[j], face)
  {
    if i < j {
      assert BY_BALANCE_DESC(cs[i]) <= BY_BALANCE_DESC(cs[j]);
    }
  }

  /** Exchange: any choice of survivors costs at least as much as equally many from the front. */
  lemma {:induction false} FrontIsCheapest(cs: seq<Channel>, chosen: Channel -> bool, face: nat)
    requires Sorted(cs, BY_BALANCE_DESC)
    ensures TotalMissing(cs[..|Filter(cs, chosen)|], face) <= TotalMissing(Filter(cs, chosen), face)
  {
    if cs != [] {
      var n := |cs| - 1;
      var front, last := cs[..n], cs[n];
      assert Sorted(front, BY_BALANCE_DESC);
      hide TotalMissing, Missing, Sorted, Filter;
      FrontIsCheapest(front, chosen, face);
      LastOfFilter(cs, chosen);
      var f := Filter(front, chosen);
      var j := |f|;
      assert cs[..j] == front[..j];
      if chosen(last) {
        assert Filter(cs, chosen) == f + [last];
        TotalMissingSnoc(f, last, face);
        TotalMissingNext(cs, j, face);
        LaterCostsMore(cs, j, n, face);
      } else {
        assert Filter(cs, chosen) == f;
      }
    }
  }

  /** What the walk has done when every dispatch was accepted: it raised a front of `m` channels. */
  ghost predicate RaisedFront(st: TopUpState, cs: seq<Channel>, face: nat, budget: nat, m: nat)
    requires m <= |cs|
  {
    && AcceptedCount(st.attempts) == m
    && TotalMissing(cs[..m], face) + st.budget == budget
    && (if st.stopped then m < |cs| && budget < TotalMissing(cs[..m + 1], face) else m == |cs|)
  }

  lemma RaisesNext(st: TopUpState, cs: seq<Channel>, face: nat, budget: nat)
    requires cs != [] && cs[|cs| - 1].balance < face && RaisedFront(st, cs[..|cs| - 1], face, budget, |cs| - 1)
    requires !st.stopped
    ensures var next := TopUpStep(st, cs[|cs| - 1], face, true);
            if next.stopped then RaisedFront(next, cs, face, budget, |cs| - 1)
            else RaisedFront(next, cs, face, budget, |cs|)
  {
    hide TotalMissing, AcceptedCount;
    var n := |cs| - 1;
    assert cs[..n][..n] == cs[..n] && cs[..n + 1] == cs;
    TotalMissingNext(cs, n, face);
    AttemptSnoc(st.attempts, Attempt(FundTx, Chan(cs[n].id), Missing(cs[n], face), true));
  }

  lemma StaysRaised(st: TopUpState, cs: seq<Channel>, face: nat, budget: nat, m: nat)
    requires cs != [] && m <= |cs| - 1 && RaisedFront(st, cs[..|cs| - 1], face, budget, m) && st.stopped
    ensures RaisedFront(st, cs, face, budget, m)
  {
    hide TotalMissing, AcceptedCount;
    var front := cs[..|cs| - 1];
    assert front[..m] == cs[..m] && front[..m + 1] == cs[..m + 1];
  }

  lemma {:induction false} AcceptedFrontIsRaised(cs: seq<Channel>, answers: seq<bool>, face: nat, budget: nat)
    returns (m: nat)
    requires |cs| == |answers|
    requires forall i :: 0 <= i < |cs| ==> cs[i].balance < face
    requires forall i :: 0 <= i < |answers| ==> answers[i]
    ensures m <= |cs| && RaisedFront(TopUpFold(cs, answers, face, budget), cs, face, budget, m)
  {
    m := 0;
    if cs != [] {
      var n := |cs| - 1;
      hide TotalMissing, AcceptedCount, RaisedFront, TopUpStep;
      m := AcceptedFrontIsRaised(cs[..n], answers[..n], face, budget);
      var st := TopUpFold(cs[..n], answers[..n], face, budget);
      if st.stopped {
        StaysRaised(st, cs, face, budget, m);
        StoppedTopUp(st, cs[n], face, answers[n]);
      } else {
        UnstoppedRaisesAll(st, cs[..n], face, budget, m);
        RaisesNext(st, cs, face, budget);
        m := if TopUpStep(st, cs[n], face, true).stopped then n else n + 1;
      }
    }
  }

  lemma StoppedTopUp(st: TopUpState, c: Channel, face: nat, accepted: bool)
    requires st.stopped
    ensures TopUpStep(st, c, face, accepted) == st
  {}

  lemma UnstoppedRaisesAll(st: TopUpState, cs: seq<Channel>, face: nat, budget: nat, m: nat)
    requires m <= |cs| && RaisedFront(st, cs, face, budget, m) && !st.stopped
    ensures m == |cs|
  {}

  lemma AllTrueIsMaximal(cs: seq<Channel>, face: nat, budget: nat, chosen: Channel -> bool)
    requires Sorted(cs, BY_BALANCE_DESC) && forall i :: 0 <= i < |cs| ==> cs[i].balance < face
    requires TotalMissing(Filter(cs, chosen), face) <= budget
    ensures |Filter(cs, chosen)| <= AcceptedCount(TopUpFold(cs, AllTrue(|cs|), face, budget).attempts)
  {
    var m := AcceptedFrontIsRaised(cs, AllTrue(|cs|), face, budget);
    hide TotalMissing, AcceptedCount, TopUpFold, Sorted;
    FrontIsCheapest(cs, chosen, face);
    var j := |Filter(cs, chosen)|;
    if j > m {
      TotalMissingGrows(cs[..j], m + 1, face);
      EarlierFront(cs, m + 1, j);
    }
  }

  function AllTrue(n: nat): (answers: seq<bool>)
    ensures |answers| == n && forall i :: 0 <= i < n ==> answers[i]
  {
    seq(n, _ => true)
  }

  /** The candidates without those the walk asked for and was refused. */
  function Unrefused(cs: seq<Channel>, answers: seq<bool>, face: nat, budget: nat): (r: seq<Channel>)
    requires |cs| == |answers|
    ensures forall c :: c in r ==> c in cs
  {
    if cs == [] then []
    else
      var n := |cs| - 1;
      var st := TopUpFold(cs[..n], answers[..n], face, budget);
      var asked := |TopUpStep(st, cs[n], face, answers[n]).attempts| > |st.attempts|;
      Unrefused(cs[..n], answers[..n], face, budget) + if asked && !answers[n] then [] else [cs[n]]
  }

  lemma {:induction false} UnrefusedSorted(cs: seq<Channel>, answers: seq<bool>, face: nat, budget: nat)
    requires |cs| == |answers| && Sorted(cs, BY_BALANCE_DESC)
    ensures Sorted(Unrefused(cs, answers, face, budget), BY_BALANCE_DESC)
  {
    if cs != [] {
      var n := |cs| - 1;
      hide TopUpFold, TopUpStep;
      var front := Unrefused(cs[..n], answers[..n], face, budget);
      UnrefusedSorted(cs[..n], answers[..n], face, budget);
      forall i | 0 <= i < |front| ensures BY_BALANCE_DESC(front[i]) <= BY_BALANCE_DESC(cs[n]) {
        assert front[i] in cs[..n];
      }
    }
  }

  /** Two walks agree on what they have left, granted and whether they stopped. */
  ghost predicate SameWalk(a: TopUpState, b: TopUpState) {
    a.budget == b.budget && a.stopped == b.stopped && AcceptedCount(a.attempts) == AcceptedCount(b.attempts)
  }

  lemma SameWalkStep(a: TopUpState, b: TopUpState, c: Channel, face: nat, accepted: bool)
    requires SameWalk(a, b)
    ensures var next := TopUpStep(a, c, face, accepted);
            if |next.attempts| > |a.attempts| && !accepted then SameWalk(next, b)
            else SameWalk(next, TopUpStep(b, c, face, true))
  {
    hide AcceptedCount;
    AttemptSnoc(a.attempts, Attempt(FundTx, Chan(c.id), Missing(c, face), accepted));
    AttemptSnoc(b.attempts, Attempt(FundTx, Chan(c.id), Missing(c, face), true));
  }

  lemma {:induction false} GrantedNext(cs: seq<Channel>, c: Channel, face: nat, budget: nat)
    ensures TopUpFold(cs + [c], AllTrue(|cs + [c]|), face, budget)
         == TopUpStep(TopUpFold(cs, AllTrue(|cs|), face, budget), c, face, true)
  {
    hide TopUpStep;
    var more := cs + [c];
    assert more[..|cs|] == cs && AllTrue(|more|)[..|cs|] == AllTrue(|cs|);
  }

  /** Refused candidates leave no trace: the walk goes as if they had not been there and every dispatch
      had been granted. */
  lemma {:induction false} RefusalsLeaveNoTrace(cs: seq<Channel>, answers: seq<bool>, face: nat, budget: nat)
    requires |cs| == |answers|
    ensures var rest := Unrefused(cs, answers, face, budget);
            SameWalk(TopUpFold(cs, answers, face, budget), TopUpFold(rest, AllTrue(|rest|), face, budget))
  {
    if cs != [] {
      var n := |cs| - 1;
      var front := Unrefused(cs[..n], answers[..n], face, budget);
      var a := TopUpFold(cs[..n], answers[..n], face, budget);
      var b := TopUpFold(front, AllTrue(|front|), face, budget);
      assert TopUpFold(cs, answers, face, budget) == TopUpStep(a, cs[n], face, answers[n]);
      hide TopUpStep, SameWalk, TopUpFold, AllTrue;
      RefusalsLeaveNoTrace(cs[..n], answers[..n], face, budget);
      SameWalkStep(a, b, cs[n], face, answers[n]);
      GrantedNext(front, cs[n], face, budget);
      assert front + [] == front;
    } else {
      assert SameWalk(TopUpFold(cs, answers, face, budget), TopUpFold([], AllTrue(0), face, budget));
    }
  }

  ghost predicate AllAccepted(attempts: seq<Attempt>) {
    forall i :: 0 <= i < |attempts| ==> attempts[i].accepted
  }

  lemma AcceptedSoFar(st: TopUpState, c: Channel, face: nat, accepted: bool)
    requires AllAccepted(TopUpStep(st, c, face, accepted).attempts)
    ensures AllAccepted(st.attempts)
    ensures |TopUpStep(st, c, face, accepted).attempts| > |st.attempts| ==> accepted
  {
    var next := TopUpStep(st, c, face, accepted).attempts;
    assert forall i :: 0 <= i < |st.attempts| ==> st.attempts[i] == next[i];
    if |next| > |st.attempts| {
      assert next[|st.attempts|].accepted;
    }
  }

  lemma {:induction false} NothingRefused(cs: seq<Channel>, answers: seq<bool>, face: nat, budget: nat)
    requires |cs| == |answers|
    requires AllAccepted(TopUpFold(cs, answers, face, budget).attempts)
    ensures Unrefused(cs, answers, face, budget) == cs
  {
    if cs != [] {
      var n := |cs| - 1;
      hide TopUpStep;
      var st := TopUpFold(cs[..n], answers[..n], face, budget);
      AcceptedSoFar(st, cs[n], face, answers[n]);
      assert [cs[n]] == cs[n..] && cs[..n] + [cs[n]] == cs;
      NothingRefused(cs[..n], answers[..n], face, budget);
    }
  }

  /** The walk in descending balance with its early break raises at least as many survivors to face value
      as any other choice, among those it was not refused, that the same budget could pay for; when every
      attempt was accepted that is any choice at all, whether or not the walk stopped early. */
  lemma TopUpIsMaximal(cs: seq<Channel>, answers: seq<bool>, face: nat, budget: nat, chosen: Channel -> bool)
    requires |cs| == |answers| && Sorted(cs, BY_BALANCE_DESC)
    requires forall i :: 0 <= i < |cs| ==> cs[i].balance < face
    ensures var st, rest := TopUpFold(cs, answers, face, budget), Unrefused(cs, answers, face, budget);
            && (TotalMissing(Filter(rest, chosen), face) <= budget ==>
                |Filter(rest, chosen)| <= AcceptedCount(st.attempts))
            && (AllAccepted(st.attempts) ==> rest == cs)
  {
    hide TotalMissing, AcceptedCount, TopUpFold, Sorted, Unrefused;
    var st, rest := TopUpFold(cs, answers, face, budget), Unrefused(cs, answers, face, budget);
    RefusalsLeaveNoTrace(cs, answers, face, budget);
    UnrefusedSorted(cs, answers, face, budget);
    if TotalMissing(Filter(rest, chosen), face) <= budget {
      forall i | 0 <= i < |rest| ensures rest[i].balance < face {
        assert rest[i] in cs;
      }
      AllTrueIsMaximal(rest, face, budget, chosen);
    }
    if AllAccepted(st.attempts) {
      NothingRefused(cs, answers, face, budget);
    }
  }

  lemma EarlierFront(cs: seq<Channel>, m: nat, j: nat)
    requires m <= j <= |cs|
    ensures cs[..j][..m] == cs[..m]
  {}

  // ---------------------------------------------------------------------------------------------
  // Regular close pass
  // ---------------------------------------------------------------------------------------------

  datatype StartupPhase = Observing | ShieldingConnected | Expired

  function PhaseAt(elapsed: nat, observation: nat, grace: nat): StartupPhase {
    if elapsed < observation then Observing
    else if elapsed < grace then ShieldingConnected
    else Expired
  }

  /** The startup guard only ever relaxes. */
  lemma PhaseNeverGoesBack(elapsed: nat, later: nat, observation: nat, grace: nat)
    requires elapsed <= later
    ensures PhaseAt(later, observation, grace).Observing? ==> PhaseAt(elapsed, observation, grace).Observing?
    ensures PhaseAt(elapsed, observation, grace).Expired? ==> PhaseAt(later, observation, grace).Expired?
    ensures observation == 0 && grace == 0 ==> PhaseAt(elapsed, observation, grace).Expired?
  {}

  datatype CloseGuards = CloseGuards(maxConcurrent: nat, perTickCap: Option<nat>, openCount: nat, minOpen: nat,
                                     phase: StartupPhase, known: set<ChannelId>, disconnected: set<ChannelId>)

  datatype CloseAnswer = CloseAnswer(busy: bool, accepted: bool)

  datatype CloseState = CloseState(attempts: seq<Attempt>, closeCount: nat, dispatched: nat, stopped: bool)

  function SatSub(a: nat, b: nat): nat { if a >= b then a - b else 0 }

  function CloseStep(st: CloseState, id: ChannelId, g: CloseGuards, answer: CloseAnswer): CloseState {
    if st.stopped then st
    else if st.closeCount >= g.maxConcurrent then st.(stopped := true)
    else if g.perTickCap.Some? && st.dispatched >= g.perTickCap.value then st.(stopped := true)
    else if SatSub(g.openCount, st.closeCount) <= g.minOpen then st.(stopped := true)
    else if id !in g.known || answer.busy then st
    else if g.phase == ShieldingConnected && id !in g.disconnected then st
    else st.(attempts := st.attempts + [Attempt(CloseTx, Chan(id), 0, answer.accepted)],
             closeCount := if answer.accepted then st.closeCount + 1 else st.closeCount,
             dispatched := if answer.accepted then st.dispatched + 1 else st.dispatched)
  }

  function CloseFold(ids: seq<ChannelId>, answers: seq<CloseAnswer>, g: CloseGuards, closeCount: nat): CloseState
    requires |ids| == |answers|
  {
    if ids == [] then CloseState([], closeCount, 0, false)
    else
      var n := |ids| - 1;
      CloseStep(CloseFold(ids[..n], answers[..n], g, closeCount), ids[n], g, answers[n])
  }

  /** The attempt closes one of `ids`, and while connected peers are shielded, a disconnected one. */
  ghost predicate ClosesOneOf(a: Attempt, ids: seq<ChannelId>, g: CloseGuards) {
    && a.kind == CloseTx && a.amount == 0 && a.key.Chan? && a.key.id in g.known
    && (g.phase == ShieldingConnected ==> a.key.id in g.disconnected)
    && exists i :: 0 <= i < |ids| && ids[i] == a.key.id
  }

  ghost predicate WithinGuards(st: CloseState, g: CloseGuards, closeCount: nat) {
    && st.dispatched == AcceptedCount(st.attempts) && st.closeCount == closeCount + st.dispatched
    && Spent(st.attempts) == 0
    && (st.dispatched > 0 ==> g.openCount - st.closeCount >= g.minOpen && st.closeCount <= g.maxConcurrent)
    && (g.perTickCap.Some? ==> st.dispatched <= g.perTickCap.value)
  }

  lemma CloseStepIsGuarded(st: CloseState, id: ChannelId, g: CloseGuards, answer: CloseAnswer, closeCount: nat)
    requires WithinGuards(st, g, closeCount)
    ensures WithinGuards(CloseStep(st, id, g, answer), g, closeCount)
  {
    hide Spent, AcceptedCount;
    AttemptSnoc(st.attempts, Attempt(CloseTx, Chan(id), 0, answer.accepted));
  }

  lemma ClosesMore(attempts: seq<Attempt>, ids: seq<ChannelId>, g: CloseGuards)
    requires ids != [] && forall i :: 0 <= i < |attempts| ==> ClosesOneOf(attempts[i], ids[..|ids| - 1], g)
    ensures forall i :: 0 <= i < |attempts| ==> ClosesOneOf(attempts[i], ids, g)
  {
    var n := |ids| - 1;
    forall i | 0 <= i < |attempts| ensures ClosesOneOf(attempts[i], ids, g) {
      assert ClosesOneOf(attempts[i], ids[..n], g);
      var m :| 0 <= m < n && ids[..n][m] == attempts[i].key.id;
      assert ids[m] == attempts[i].key.id;
    }
  }

  /** The regular close pass keeps the population at or above its floor, stays within the concurrency
      cap and the selector's per-tick cap, and while connected peers are shielded asks only for
      channels of disconnected ones. */
  lemma {:induction false} ClosePassIsGuarded(ids: seq<ChannelId>, answers: seq<CloseAnswer>,
                                              g: CloseGuards, closeCount: nat)
    requires |ids| == |answers|
    ensures WithinGuards(CloseFold(ids, answers, g, closeCount), g, closeCount)
    ensures var attempts := CloseFold(ids, answers, g, closeCount).attempts;
            forall i :: 0 <= i < |attempts| ==> ClosesOneOf(attempts[i], ids, g)
  {
    if ids != [] {
      var n := |ids| - 1;
      ClosePassIsGuarded(ids[..n], answers[..n], g, closeCount);
      hide WithinGuards, Spent, AcceptedCount;
      var st := CloseFold(ids[..n], answers[..n], g, closeCount);
      CloseStepIsGuarded(st, ids[n], g, answers[n], closeCount);
      ClosesMore(st.attempts, ids, g);
      assert ids[n] == ids[n];
    } else {
      assert WithinGuards(CloseState([], closeCount, 0, false), g, closeCount);
    }
  }

  // ---------------------------------------------------------------------------------------------
  // Disconnection streaks
  // ---------------------------------------------------------------------------------------------

  /** What one evaluated tick saw: destinations of open channels, and which of them were disconnected. */
  datatype Sighting = Sighting(live: set<Address>, disconnected: set<Address>)

  function StreakOf(streak: map<Address, nat>, dest: Address): nat {
    if dest in streak then streak[dest] else 0
  }

  function NextStreak(streak: map<Address, nat>, seen: Sighting): map<Address, nat> {
    map dest | dest in seen.live && dest in seen.disconnected :: StreakOf(streak, dest) + 1
  }

  function StreakAfter(history: seq<Sighting>): map<Address, nat> {
    if history == [] then map[]
    else NextStreak(StreakAfter(history[..|history| - 1]), history[|history| - 1])
  }

  ghost predicate DownAt(history: seq<Sighting>, i: nat, dest: Address)
    requires i < |history|
  {
    dest in history[i].live && dest in history[i].disconnected
  }

  /** The streak of a destination is the length of the run of latest evaluated ticks in which it was
      seen with an open channel and disconnected: those ticks all saw it so, the one before did not. */
  lemma {:induction false} StreakIsRunLength(history: seq<Sighting>, dest: Address)
    ensures var n := StreakOf(StreakAfter(history), dest);
            && n <= |history|
            && (forall i :: |history| - n <= i < |history| ==> DownAt(history, i, dest))
            && (n < |history| ==> !DownAt(history, |history| - n - 1, dest))
  {
    if history != [] {
      var front := history[..|history| - 1];
      StreakIsRunLength(front, dest);
      assert forall i :: 0 <= i < |front| ==> front[i] == history[i];
      var n := StreakOf(StreakAfter(front), dest);
      assert forall i :: 0 <= i < |front| ==> (DownAt(front, i, dest) <==> DownAt(history, i, dest));
    }
  }

  // ---------------------------------------------------------------------------------------------
  // Finalize pass
  // ---------------------------------------------------------------------------------------------

  datatype FinalizeState = FinalizeState(attempts: seq<Attempt>, count: nat, stopped: bool)

  predicate Overdue(c: Channel, wallClock: nat, overdue: nat) {
    c.status.PendingToClose? && c.status.closureTime <= wallClock && wallClock - c.status.closureTime >= overdue
  }

  function FinalizeStep(st: FinalizeState, c: Channel, cap: nat, wallClock: nat, overdue: nat, answer: CloseAnswer)
    : FinalizeState
  {
    if st.stopped then st
    else if st.count >= cap then st.(stopped := true)
    else if answer.busy || !Overdue(c, wallClock, overdue) then st
    else st.(attempts := st.attempts + [Attempt(FinalizeTx, Chan(c.id), 0, answer.accepted)],
             count := if answer.accepted then st.count + 1 else st.count)
  }

  function FinalizeFold(cs: seq<Channel>, answers: seq<CloseAnswer>, cap: nat, wallClock: nat, overdue: nat, count: nat)
    : FinalizeState
    requires |cs| == |answers|
  {
    if cs == [] then FinalizeState([], count, false)
    else
      var n := |cs| - 1;
      FinalizeStep(FinalizeFold(cs[..n], answers[..n], cap, wallClock, overdue, count), cs[n], cap, wallClock, overdue,
                   answers[n])
  }

  function IsOverdue(wallClock: nat, overdue: nat): Channel -> bool {
    (c: Channel) => Overdue(c, wallClock, overdue)
  }

  /** The count tells how many finalizations are in flight, within the cap as soon as one was granted. */
  ghost predicate CountsWithin(st: FinalizeState, cap: nat, count: nat) {
    && st.count == count + AcceptedCount(st.attempts) && Spent(st.attempts) == 0
    && (AcceptedCount(st.attempts) > 0 ==> st.count <= cap)
  }

  lemma FinalizeStepCounts(st: FinalizeState, c: Channel, cap: nat, wallClock: nat,
                           overdue: nat, answer: CloseAnswer, count: nat)
    requires CountsWithin(st, cap, count)
    ensures CountsWithin(FinalizeStep(st, c, cap, wallClock, overdue, answer), cap, count)
    ensures var next := FinalizeStep(st, c, cap, wallClock, overdue, answer);
            next.attempts == st.attempts
            || (&& next.attempts == st.attempts + [Attempt(FinalizeTx, Chan(c.id), 0, answer.accepted)]
                && Overdue(c, wallClock, overdue))
  {
    hide Spent, AcceptedCount, Overdue;
    AttemptSnoc(st.attempts, Attempt(FinalizeTx, Chan(c.id), 0, answer.accepted));
  }

  /** Only channels whose notice period ended long enough ago are finalized, within the cap. */
  lemma {:induction false} FinalizePassIsGuarded(cs: seq<Channel>, answers: seq<CloseAnswer>,
                                                 cap: nat, wallClock: nat, overdue: nat, count: nat)
    requires |cs| == |answers|
    ensures var st := FinalizeFold(cs, answers, cap, wallClock, overdue, count);
            && st.count == count + AcceptedCount(st.attempts)
            && (AcceptedCount(st.attempts) > 0 ==> st.count <= cap)
            && Spent(st.attempts) == 0
            && AllAskFor(st.attempts, FinalizeTx, cs, IsOverdue(wallClock, overdue))
  {
    if cs != [] {
      var n := |cs| - 1;
      FinalizePassIsGuarded(cs[..n], answers[..n], cap, wallClock, overdue, count);
      hide Spent, AcceptedCount, AllAskFor, Overdue, FinalizeStep;
      var st := FinalizeFold(cs[..n], answers[..n], cap, wallClock, overdue, count);
      FinalizeStepCounts(st, cs[n], cap, wallClock, overdue, answers[n], count);
      assert cs == cs[..n] + [cs[n]];
      AllAskForMore(st.attempts, FinalizeTx, cs[..n], IsOverdue(wallClock, overdue), cs[n]);
    }
  }

  // ---------------------------------------------------------------------------------------------
  // Open pass
  // ---------------------------------------------------------------------------------------------

  datatype OpenState = OpenState(attempts: seq<Attempt>, budget: nat, short: bool, stopped: bool)

  /** `found` is what re-reading the channel to `addr` gave; nothing when there is none or the read failed. */
  function OpenStep(st: OpenState, addr: Address, found: Option<Channel>, f: ResolvedFunding,
                    accepted: bool): OpenState {
    if st.stopped then st
    else if st.budget < f.initial then st.(short := true, stopped := true)
    else if found.Some? && found.value.status.Open? then
      if found.value.balance >= f.lowerThreshold then st
      else if st.budget < f.topup then st.(short := true)
      else st.(attempts := st.attempts + [Attempt(FundTx, Chan(found.value.id), f.topup, accepted)],
               budget := if accepted then st.budget - f.topup else st.budget)
    else if found.Some? && found.value.status.PendingToClose? then st
    else st.(attempts := st.attempts + [Attempt(OpenTx, Peer(addr), f.initial, accepted)],
             budget := if accepted then st.budget - f.initial else st.budget)
  }

  function OpenFold(addrs: seq<Address>, found: seq<Option<Channel>>,
                    answers: seq<bool>, f: ResolvedFunding, budget: nat)
    : OpenState
    requires |addrs| == |found| == |answers|
  {
    if addrs == [] then OpenState([], budget, false, false)
    else
      var n := |addrs| - 1;
      OpenStep(OpenFold(addrs[..n], found[..n], answers[..n], f, budget), addrs[n], found[n], f, answers[n])
  }

  /** The attempt opens towards a peer found to have no live channel, or redirects into a top-up of an
      open channel below its threshold. */
  ghost predicate OpensOrTopsUp(a: Attempt, addr: Address, found: Option<Channel>, f: ResolvedFunding) {
    if a.kind == OpenTx then
      a.amount == f.initial && a.key == Peer(addr) && (found.Some? ==> found.value.status.Closed?)
    else
      && a.kind == FundTx && a.amount == f.topup && found.Some? && a.key == Chan(found.value.id)
      && found.value.status.Open? && found.value.balance < f.lowerThreshold
  }

  ghost predicate ForOneOf(a: Attempt, addrs: seq<Address>, found: seq<Option<Channel>>, f: ResolvedFunding)
    requires |addrs| == |found|
  {
    exists i :: 0 <= i < |addrs| && OpensOrTopsUp(a, addrs[i], found[i], f)
  }

  lemma OpenStepConserves(st: OpenState, addr: Address, found: Option<Channel>,
                          f: ResolvedFunding, accepted: bool, budget: nat)
    requires st.budget + Spent(st.attempts) == budget
    ensures var next := OpenStep(st, addr, found, f, accepted);
            && next.budget + Spent(next.attempts) == budget
            && (|| next.attempts == st.attempts
                || (|next.attempts| == |st.attempts| + 1 && next.attempts[..|st.attempts|] == st.attempts
                 && OpensOrTopsUp(next.attempts[|st.attempts|], addr, found, f)))
  {
    hide Spent;
    AttemptSnoc(st.attempts, Attempt(OpenTx, Peer(addr), f.initial, accepted));
    if found.Some? {
      AttemptSnoc(st.attempts, Attempt(FundTx, Chan(found.value.id), f.topup, accepted));
    }
  }

  lemma ForOneOfMore(attempts: seq<Attempt>, addrs: seq<Address>, found: seq<Option<Channel>>, f: ResolvedFunding)
    requires |addrs| == |found| && addrs != []
    requires forall i :: 0 <= i < |attempts| ==> ForOneOf(attempts[i], addrs[..|addrs| - 1], found[..|addrs| - 1], f)
    ensures forall i :: 0 <= i < |attempts| ==> ForOneOf(attempts[i], addrs, found, f)
  {
    var n := |addrs| - 1;
    forall i | 0 <= i < |attempts| ensures ForOneOf(attempts[i], addrs, found, f) {
      assert ForOneOf(attempts[i], addrs[..n], found[..n], f);
      var m :| 0 <= m < n && OpensOrTopsUp(attempts[i], addrs[..n][m], found[..n][m], f);
      assert OpensOrTopsUp(attempts[i], addrs[m], found[m], f);
    }
  }

  /** The open pass never overspends, the redirect into a top-up included; it opens only towards peers
      it found no live channel with, and tops up only open channels below their threshold. */
  lemma {:induction false} OpenPassConserves(addrs: seq<Address>, found: seq<Option<Channel>>,
                                             answers: seq<bool>, f: ResolvedFunding, budget: nat)
    requires |addrs| == |found| == |answers|
    ensures var st := OpenFold(addrs, found, answers, f, budget);
            && st.budget + Spent(st.attempts) == budget
            && |st.attempts| <= |addrs|
            && (forall i :: 0 <= i < |st.attempts| ==> ForOneOf(st.attempts[i], addrs, found, f))
  {
    if addrs != [] {
      var n := |addrs| - 1;
      OpenPassConserves(addrs[..n], found[..n], answers[..n], f, budget);
      hide Spent, OpenStep, OpensOrTopsUp;
      var st := OpenFold(addrs[..n], found[..n], answers[..n], f, budget);
      var next := OpenFold(addrs, found, answers, f, budget);
      OpenStepConserves(st, addrs[n], found[n], f, answers[n], budget);
      ForOneOfMore(st.attempts, addrs, found, f);
      assert next.attempts != st.attempts ==> ForOneOf(next.attempts[|st.attempts|], addrs, found, f);
      assert next.attempts != st.attempts ==>
        forall i :: 0 <= i < |st.attempts| ==> next.attempts[i] == next.attempts[..|st.attempts|][i];
    }
  }

  // ---------------------------------------------------------------------------------------------
  // How the loops over a worklist extend these folds, and what a loop that breaks has computed
  // ---------------------------------------------------------------------------------------------

  lemma FundNext(cs: seq<Channel>, answers: seq<bool>, answer: bool,
                 i: nat, f: ResolvedFunding, stranded: bool, budget: nat)
    requires i < |cs| && |answers| == i && f.face > 0
    ensures FundFold(cs[..i + 1], answers + [answer], f, stranded, budget)
         == FundStep(FundFold(cs[..i], answers, f, stranded, budget), cs[i], f, stranded, answer)
  {
    assert cs[..i + 1][..i] == cs[..i] && (answers + [answer])[..i] == answers;
  }

  lemma {:induction false} FundStops(cs: seq<Channel>, answers: seq<bool>, m: nat,
                                     f: ResolvedFunding, stranded: bool, budget: nat)
    requires m <= |cs| == |answers| && f.face > 0
    requires FundFold(cs[..m], answers[..m], f, stranded, budget).stopped
    ensures FundFold(cs, answers, f, stranded, budget) == FundFold(cs[..m], answers[..m], f, stranded, budget)
    decreases |cs|
  {
    var n := |cs| - 1;
    if m == |cs| {
      assert cs[..m] == cs && answers[..m] == answers;
    } else {
      assert cs[..n][..m] == cs[..m] && answers[..n][..m] == answers[..m];
      FundStops(cs[..n], answers[..n], m, f, stranded, budget);
    }
  }

  lemma ReclaimNext(ids: seq<ChannelId>, answers: seq<bool>, answer: bool, i: nat, closeCount: nat, cap: nat)
    requires i < |ids| && |answers| == i
    ensures ReclaimFold(ids[..i + 1], answers + [answer], closeCount, cap)
         == ReclaimStep(ReclaimFold(ids[..i], answers, closeCount, cap), ids[i], cap, answer)
  {
    assert ids[..i + 1][..i] == ids[..i] && (answers + [answer])[..i] == answers;
  }

  lemma {:induction false} ReclaimStops(ids: seq<ChannelId>, answers: seq<bool>, m: nat, closeCount: nat, cap: nat)
    requires m <= |ids| == |answers|
    requires ReclaimFold(ids[..m], answers[..m], closeCount, cap).stopped
    ensures ReclaimFold(ids, answers, closeCount, cap) == ReclaimFold(ids[..m], answers[..m], closeCount, cap)
    decreases |ids|
  {
    var n := |ids| - 1;
    if m == |ids| {
      assert ids[..m] == ids && answers[..m] == answers;
    } else {
      assert ids[..n][..m] == ids[..m] && answers[..n][..m] == answers[..m];
      ReclaimStops(ids[..n], answers[..n], m, closeCount, cap);
    }
  }

  lemma TopUpNext(cs: seq<Channel>, answers: seq<bool>, answer: bool, i: nat, face: nat, budget: nat)
    requires i < |cs| && |answers| == i
    ensures TopUpFold(cs[..i + 1], answers + [answer], face, budget)
         == TopUpStep(TopUpFold(cs[..i], answers, face, budget), cs[i], face, answer)
  {
    assert cs[..i + 1][..i] == cs[..i] && (answers + [answer])[..i] == answers;
  }

  lemma {:induction false} TopUpStops(cs: seq<Channel>, answers: seq<bool>, m: nat, face: nat, budget: nat)
    requires m <= |cs| == |answers|
    requires TopUpFold(cs[..m], answers[..m], face, budget).stopped
    ensures TopUpFold(cs, answers, face, budget) == TopUpFold(cs[..m], answers[..m], face, budget)
    decreases |cs|
  {
    var n := |cs| - 1;
    if m == |cs| {
      assert cs[..m] == cs && answers[..m] == answers;
    } else {
      assert cs[..n][..m] == cs[..m] && answers[..n][..m] == answers[..m];
      TopUpStops(cs[..n], answers[..n], m, face, budget);
    }
  }

  lemma CloseNext(ids: seq<ChannelId>, answers: seq<CloseAnswer>,
                  answer: CloseAnswer, i: nat, g: CloseGuards, closeCount: nat)
    requires i < |ids| && |answers| == i
    ensures CloseFold(ids[..i + 1], answers + [answer], g, closeCount)
         == CloseStep(CloseFold(ids[..i], answers, g, closeCount), ids[i], g, answer)
  {
    assert ids[..i + 1][..i] == ids[..i] && (answers + [answer])[..i] == answers;
  }

  lemma {:induction false} CloseStops(ids: seq<ChannelId>, answers: seq<CloseAnswer>,
                                      m: nat, g: CloseGuards, closeCount: nat)
    requires m <= |ids| == |answers|
    requires CloseFold(ids[..m], answers[..m], g, closeCount).stopped
    ensures CloseFold(ids, answers, g, closeCount) == CloseFold(ids[..m], answers[..m], g, closeCount)
    decreases |ids|
  {
    var n := |ids| - 1;
    if m == |ids| {
      assert ids[..m] == ids && answers[..m] == answers;
    } else {
      assert ids[..n][..m] == ids[..m] && answers[..n][..m] == answers[..m];
      CloseStops(ids[..n], answers[..n], m, g, closeCount);
    }
  }

  lemma FinalizeNext(cs: seq<Channel>, answers: seq<CloseAnswer>, answer: CloseAnswer,
                     i: nat, cap: nat, wallClock: nat, overdue: nat, count: nat)
    requires i < |cs| && |answers| == i
    ensures FinalizeFold(cs[..i + 1], answers + [answer], cap, wallClock, overdue, count)
         == FinalizeStep(FinalizeFold(cs[..i], answers, cap, wallClock, overdue, count),
                         cs[i], cap, wallClock, overdue, answer)
  {
    assert cs[..i + 1][..i] == cs[..i] && (answers + [answer])[..i] == answers;
  }

  lemma {:induction false} FinalizeStops(cs: seq<Channel>, answers: seq<CloseAnswer>, m: nat,
                                         cap: nat, wallClock: nat, overdue: nat, count: nat)
    requires m <= |cs| == |answers|
    requires FinalizeFold(cs[..m], answers[..m], cap, wallClock, overdue, count).stopped
    ensures FinalizeFold(cs, answers, cap, wallClock, overdue, count)
         == FinalizeFold(cs[..m], answers[..m], cap, wallClock, overdue, count)
    decreases |cs|
  {
    var n := |cs| - 1;
    if m == |cs| {
      assert cs[..m] == cs && answers[..m] == answers;
    } else {
      assert cs[..n][..m] == cs[..m] && answers[..n][..m] == answers[..m];
      FinalizeStops(cs[..n], answers[..n], m, cap, wallClock, overdue, count);
    }
  }

  lemma OpenNext(addrs: seq<Address>, found: seq<Option<Channel>>, answers: seq<bool>,
                 answer: bool, i: nat, f: ResolvedFunding, budget: nat)
    requires |addrs| == |found| && i < |addrs| && |answers| == i
    ensures OpenFold(addrs[..i + 1], found[..i + 1], answers + [answer], f, budget)
         == OpenStep(OpenFold(addrs[..i], found[..i], answers, f, budget), addrs[i], found[i], f, answer)
  {
    assert addrs[..i + 1][..i] == addrs[..i] && (answers + [answer])[..i] == answers;
    assert found[..i + 1][..i] == found[..i];
  }

  lemma {:induction false} OpenStops(addrs: seq<Address>, found: seq<Option<Channel>>,
                                     answers: seq<bool>, m: nat, f: ResolvedFunding, budget: nat)
    requires |addrs| == |found| && m <= |addrs| == |answers|
    requires OpenFold(addrs[..m], found[..m], answers[..m], f, budget).stopped
    ensures OpenFold(addrs, found, answers, f, budget) == OpenFold(addrs[..m], found[..m], answers[..m], f, budget)
    decreases |addrs|
  {
    var n := |addrs| - 1;
    if m == |addrs| {
      assert addrs[..m] == addrs && answers[..m] == answers; assert found[..m] == found;
    } else {
      assert addrs[..n][..m] == addrs[..m] && answers[..n][..m] == answers[..m]; assert found[..n][..m] == found[..m];
      OpenStops(addrs[..n], found[..n], answers[..n], m, f, budget);
    }
  }
}
