/**
 Waiters, worker and ledger as one system: the worker's steps judge and complete events, what it
 announces is what its own steps committed, and a finished replay delivers every final deposit.
 */
module CurvySystem {
  import opened Common
  import opened CurvyMachine
  import opened CurvyPass
  import opened CurvyDelivery

  /** `begun` is the ledger when the running pass began, `pass` what it has judged and completed since. */
  datatype System = System(world: World, ledger: Ledger, begun: Ledger, pass: seq<Op>)

  /** The worker judges a candidate right after looking at the waiters, and completes events. Every other
      step leaves the ledger alone. */
  datatype Move = Step(action: Action) | Judge(candidate: PendingNote) | Finish(event: CommittedNote)

  /** The allocations somebody is parked for. */
  function WatchedIds(w: World): set<AllocationId> {
    set t | t in w.parked && t in w.asked :: w.asked[t].id
  }

  /** What a step adds to an allocation's committed amount. */
  ghost function Gained(l: Ledger, op: Op, id: AllocationId): nat {
    AmountGrows(l, op, id);
    CommittedAmount(Apply(l, op), id) - CommittedAmount(l, id)
  }

  ghost predicate Possible(s: System, move: Move) {
    match move
    case Step(a) => !a.Record? && Enabled(s.world, a)
    case Judge(_) => Enabled(s.world, LookAgain)
    case Finish(_) => s.world.worker.InPass?
  }

  function WithOp(s: System, w: World, op: Op): System {
    s.(world := w, ledger := Apply(s.ledger, op), pass := s.pass + [op])
  }

  /** A completion of a known note is recorded with what it adds; any other only moves the cursor. */
  ghost function AfterCompletion(s: System, e: CommittedNote): World
    requires s.world.worker.InPass?
  {
    var owner := AnnouncedBy(s.ledger, Complete(e));
    if owner.Some? then Act(s.world, Record(owner.value, Gained(s.ledger, Complete(e), owner.value))) else s.world
  }

  ghost function Next(s: System, move: Move): System
    requires Possible(s, move)
  {
    match move
    case Step(a) =>
      var w := Act(s.world, a);
      if a.BeginPass? then System(w, s.ledger, s.ledger, []) else s.(world := w)
    case Judge(c) =>
      var w := Act(s.world, LookAgain);
      if w.worker.Idle? then s.(world := w) else WithOp(s, w, Scan(c, WatchedIds(w)))
    case Finish(e) => WithOp(s, AfterCompletion(s, e), Complete(e))
  }

  /** A candidate is judged against exactly the waiters that are parked and have not been cancelled; when none is left
      the pass ends instead, and nothing is judged. */
  lemma JudgedAgainstTheParked(s: System, c: PendingNote)
    requires Possible(s, Judge(c))
    ensures var next := Next(s, Judge(c));
            if forall t :: t in s.world.parked ==> t in s.world.cancelled then
              next.ledger == s.ledger && next.pass == s.pass && next.world.worker.Idle?
            else
              && next.world.worker.InPass? && |next.pass| == |s.pass| + 1 && next.pass[..|s.pass|] == s.pass
              && next.pass[|s.pass|].Scan? && next.pass[|s.pass|].candidate == c
              && next.ledger == Apply(s.ledger, next.pass[|s.pass|])
              && forall id :: id in next.pass[|s.pass|].watched <==>
                   exists t :: t in s.world.parked && t !in s.world.cancelled
                               && t in s.world.asked && s.world.asked[t].id == id
  {
    hide Apply;
    var left := s.world.parked - s.world.cancelled;
    if forall t :: t in s.world.parked ==> t in s.world.cancelled {
      assert left == {};
    } else {
      var t :| t in s.world.parked && t !in s.world.cancelled;
      assert t in left;
      var w := Act(s.world, LookAgain);
      assert w.parked == left && w.asked == s.world.asked;
    }
  }

  /** The allocations with a committed note. */
  function CommittedIds(l: Ledger): set<AllocationId> {
    set key | key in l.owned && l.owned[key].committed :: key.0
  }

  /** The amounts a watcher that starts over this ledger finds. */
  ghost function Amounts(l: Ledger): map<AllocationId, nat> {
    map id | id in CommittedIds(l) :: CommittedAmount(l, id)
  }

  ghost function Initial(l: Ledger): System { System(Start(Amounts(l)), l, l, []) }

  ghost predicate PossibleMoves(l: Ledger, moves: seq<Move>)
    decreases |moves|, 0
  {
    var n := |moves| - 1;
    moves == [] || (PossibleMoves(l, moves[..n]) && Possible(AfterMoves(l, moves[..n]), moves[n]))
  }

  /** Where the moves lead from a start over ledger `l`. */
  ghost function AfterMoves(l: Ledger, moves: seq<Move>): System
    requires PossibleMoves(l, moves)
    decreases |moves|, 1
  {
    if moves == [] then Initial(l) else Next(AfterMoves(l, moves[..|moves| - 1]), moves[|moves| - 1])
  }

  // ---------------------------------------------------------------------------------------------
  // What always holds of the system
  // ---------------------------------------------------------------------------------------------

  /** The amounts the machine announces are those of the ledger. */
  ghost predicate AmountsAgree(s: System) {
    && (forall id :: Amount(s.world, id) == CommittedAmount(s.ledger, id))
    && s.world.recorded <= CommittedIds(s.ledger)
  }

  /** A waiter the replay started with has been watched by it as long as it is parked. */
  ghost predicate WatchedWhileParked(s: System, t: Token) {
    InReplay(s.world) && t in s.world.covered && t in s.world.parked && t in s.world.asked ==>
      WatchedThroughout(s.pass, s.world.asked[t].id)
  }

  /** What the replay has announced is no longer due, but for what the worker is about to announce. */
  ghost predicate DueOnlyUnannounced(s: System) {
    InReplay(s.world) ==>
      && s.world.due <= CommittedIds(s.begun)
      && forall id :: id in Announced(s.begun, s.pass) ==> id !in s.world.due || Announcing(s.world, id)
  }

  ghost predicate Consistent(s: System) {
    && Invariant(s.world) && AmountsAgree(s) && s.ledger == ApplyAll(s.begun, s.pass)
    && (forall t :: WatchedWhileParked(s, t)) && DueOnlyUnannounced(s)
  }

  lemma {:induction false} NothingCommitted(l: Ledger, id: AllocationId)
    requires id !in CommittedIds(l)
    ensures CommittedAmount(l, id) == 0
  {
    assert forall key :: key in CommittedKeys(l, id) ==> key.0 in CommittedIds(l);
    assert CommittedKeys(l, id) == {};
  }

  lemma {:induction false} StartsConsistent(l: Ledger)
    ensures Consistent(Initial(l))
  {
    StartsRight(Amounts(l));
    var w := Initial(l).world;
    forall id ensures Amount(w, id) == CommittedAmount(l, id) {
      if id !in CommittedIds(l) {
        NothingCommitted(l, id);
      }
    }
    hide Invariant, CommittedAmount, Announced;
    assert w.recorded == CommittedIds(l);
  }

  // ---------------------------------------------------------------------------------------------
  // The machine alone
  // ---------------------------------------------------------------------------------------------

  lemma {:induction false} LedgerUntouched(w: World, a: Action)
    requires Enabled(w, a) && !a.Record?
    ensures Act(w, a).ledger == w.ledger && Act(w, a).recorded == w.recorded
  {
    hide Owed, Told, Leaving, SentTo, Amount, PcOf, OfOthers;
  }

  lemma {:induction false} ParkedBeforeByCall(w: World, a: Action, t: Token)
    requires Booked(w, t) && Woken(w, t) && Enabled(w, a) && !ByWorker(a) && t in w.covered && t in Act(w, a).parked
    ensures t in w.parked && t in w.asked && Asks(Act(w, a), t, w.asked[t].id)
  {
    hide Owed, SentTo, Amount, OfOthers, Told, Leaving, MissedFor, RescuedFor, ReplaySecured;
  }

  lemma {:induction false} ParkedBeforeByWorker(w: World, a: Action, t: Token)
    requires Booked(w, t) && Enabled(w, a) && ByWorker(a) && t in Act(w, a).parked
    ensures t in w.parked && t in w.asked && Asks(Act(w, a), t, w.asked[t].id)
  {
    hide Owed, SentTo, Amount, OfOthers, Told;
  }

  /** Nobody parks again: who is parked and was covered before was parked before. */
  lemma {:induction false} ParkedBefore(w: World, a: Action, t: Token)
    requires Booked(w, t) && Woken(w, t) && Enabled(w, a) && t in w.covered && t in Act(w, a).parked
    ensures t in w.parked && t in w.asked && Asks(Act(w, a), t, w.asked[t].id)
  {
    hide Enabled, Act, Booked, Woken, Asks;
    if ByWorker(a) {
      ParkedBeforeByWorker(w, a, t);
    } else {
      ParkedBeforeByCall(w, a, t);
    }
  }

  lemma {:induction false} DueStepByCall(w: World, a: Action)
    requires Enabled(w, a) && !ByWorker(a)
    ensures Act(w, a).worker == w.worker && Act(w, a).replaying == w.replaying && Act(w, a).due == w.due
    ensures Act(w, a).ledger == w.ledger
  {
    hide Owed, SentTo, Told, Leaving, OfOthers, PcOf, Amount;
  }

  lemma {:induction false} DueStepByWorker(w: World, a: Action, id: AllocationId)
    requires Sound(w) && Enabled(w, a) && ByWorker(a) && !a.BeginPass? && InReplay(Act(w, a))
    ensures InReplay(w) && Act(w, a).due <= w.due
    ensures Announcing(w, id) ==> Announcing(Act(w, a), id) || id !in Act(w, a).due
  {
    hide Owed, SentTo, Told, Leaving, OfOthers, PcOf;
  }

  /** What stays due and in replay was so before. */
  lemma {:induction false} DueStep(w: World, a: Action, id: AllocationId)
    requires Sound(w) && Enabled(w, a) && !a.BeginPass? && InReplay(Act(w, a))
    ensures InReplay(w) && Act(w, a).due <= w.due
    ensures Announcing(w, id) ==> Announcing(Act(w, a), id) || id !in Act(w, a).due
  {
    if ByWorker(a) {
      hide Enabled, Act;
      DueStepByWorker(w, a, id);
    } else {
      DueStepByCall(w, a);
      hide Enabled, Act;
    }
  }

  lemma {:induction false} RecordStep(w: World, id: AllocationId, gained: nat)
    requires Enabled(w, Record(id, gained))
    ensures var w' := Act(w, Record(id, gained));
            && Announcing(w', id) && (InReplay(w') <==> InReplay(w)) && w'.due == w.due
            && w'.parked == w.parked && w'.covered == w.covered && w'.asked == w.asked
            && w'.recorded == w.recorded + {id} && Amount(w', id) == Amount(w, id) + gained
            && forall other :: other != id ==> Amount(w', other) == Amount(w, other)
  {}

  // ---------------------------------------------------------------------------------------------
  // Amounts
  // ---------------------------------------------------------------------------------------------

  lemma {:induction false} CommittedIdsGrow(l: Ledger, op: Op)
    ensures CommittedIds(l) <= CommittedIds(Apply(l, op))
    ensures AnnouncedBy(l, op).Some? ==> AnnouncedBy(l, op).value in CommittedIds(Apply(l, op))
  {
    var l' := Apply(l, op);
    forall id | id in CommittedIds(l) ensures id in CommittedIds(l') {
      var key :| key in l.owned && l.owned[key].committed && key.0 == id;
      assert key in l'.owned && l'.owned[key].committed;
    }
    if AnnouncedBy(l, op).Some? {
      var key := (AnnouncedBy(l, op).value, op.event.note);
      assert key in l'.owned && l'.owned[key].committed;
    }
  }

  lemma {:induction false} AmountsStayAgreed(s: System, w: World, op: Op)
    requires AmountsAgree(s) && AnnouncedBy(s.ledger, op).None?
    requires w.ledger == s.world.ledger && w.recorded == s.world.recorded
    ensures AmountsAgree(WithOp(s, w, op))
  {
    CommittedIdsGrow(s.ledger, op);
    hide Apply, AnnouncedBy, CommittedAmount, CommittedIds;
    forall id ensures Amount(w, id) == CommittedAmount(Apply(s.ledger, op), id) {
      AmountGrows(s.ledger, op, id);
    }
  }

  lemma {:induction false} AmountsAfterCompletion(s: System, e: CommittedNote)
    requires AmountsAgree(s) && s.world.worker.InPass?
    ensures AmountsAgree(WithOp(s, AfterCompletion(s, e), Complete(e)))
  {
    var op := Complete(e);
    var owner := AnnouncedBy(s.ledger, op);
    if owner.Some? {
      CommittedIdsGrow(s.ledger, op);
      RecordStep(s.world, owner.value, Gained(s.ledger, op, owner.value));
      hide Apply, AnnouncedBy, CommittedAmount, CommittedIds, Act, Amount;
      var w := AfterCompletion(s, e);
      forall id ensures Amount(w, id) == CommittedAmount(Apply(s.ledger, op), id) {
        AmountGrows(s.ledger, op, id);
      }
    } else {
      AmountsStayAgreed(s, s.world, op);
    }
  }

  lemma {:induction false} AmountsStep(s: System, move: Move)
    requires AmountsAgree(s) && Possible(s, move)
    ensures AmountsAgree(Next(s, move))
  {
    match move
    case Step(a) =>
      LedgerUntouched(s.world, a);
      hide Act, Enabled, CommittedAmount, CommittedIds;
    case Judge(c) =>
      var w := Act(s.world, LookAgain);
      LedgerUntouched(s.world, LookAgain);
      hide Act, Enabled, CommittedAmount, CommittedIds, Apply;
      AmountsStayAgreed(s, w, Scan(c, WatchedIds(w)));
    case Finish(e) =>
      AmountsAfterCompletion(s, e);
      hide Act, Enabled, CommittedAmount, CommittedIds, Apply, AmountsAgree;
  }

  // ---------------------------------------------------------------------------------------------
  // The running pass
  // ---------------------------------------------------------------------------------------------

  lemma {:induction false} LedgerStep(s: System, move: Move)
    requires s.ledger == ApplyAll(s.begun, s.pass) && Possible(s, move)
    ensures Next(s, move).ledger == ApplyAll(Next(s, move).begun, Next(s, move).pass)
  {
    hide Act, Enabled, Apply;
    var s' := Next(s, move);
    if s'.pass != s.pass && s'.pass != [] {
      assert s'.pass[..|s.pass|] == s.pass;
    }
  }

  lemma {:induction false} WatchedMore(trace: seq<Op>, op: Op, id: AllocationId)
    requires WatchedThroughout(trace, id) && (op.Scan? ==> id in op.watched)
    ensures WatchedThroughout(trace + [op], id)
  {}

  /** The world after a move is one machine step on, or the same. */
  lemma {:induction false} WorldStep(s: System, move: Move) returns (a: Option<Action>)
    requires Possible(s, move)
    ensures a.Some? ==> Enabled(s.world, a.value) && Next(s, move).world == Act(s.world, a.value)
    ensures a.None? ==> move.Finish? && Next(s, move).world == s.world
    ensures a.Some? && a.value.BeginPass? <==> move.Step? && move.action.BeginPass?
  {
    hide Act, Apply;
    match move
    case Step(b) => a := Some(b);
    case Judge(_) => a := Some(LookAgain);
    case Finish(e) =>
      var owner := AnnouncedBy(s.ledger, Complete(e));
      a := if owner.Some? then Some(Record(owner.value, Gained(s.ledger, Complete(e), owner.value))) else None;
  }

  lemma {:induction false} WatchedStep(s: System, move: Move, t: Token)
    requires Invariant(s.world) && WatchedWhileParked(s, t) && Possible(s, move)
    ensures WatchedWhileParked(Next(s, move), t)
  {
    var s' := Next(s, move);
    var a := WorldStep(s, move);
    InvariantAt(s.world, t);
    if !(move.Step? && move.action.BeginPass?) && InReplay(s'.world) && t in s'.world.covered && t in s'.world.parked
       && t in s'.world.asked
    {
      if a.Some? {
        PassStep(s.world, a.value);
        DueStep(s.world, a.value, s'.world.asked[t].id);
        ParkedBefore(s.world, a.value, t);
      }
      hide Act, Enabled, Apply, Invariant, Booked, Woken, Sound;
      assert WatchedThroughout(s.pass, s'.world.asked[t].id);
      if s'.pass != s.pass {
        WatchedMore(s.pass, s'.pass[|s.pass|], s'.world.asked[t].id);
      }
    }
  }

  lemma {:induction false} AnnouncedSnoc(l: Ledger, trace: seq<Op>, op: Op)
    ensures var last := AnnouncedBy(ApplyAll(l, trace), op);
            Announced(l, trace + [op]) == Announced(l, trace) + if last.Some? then {last.value} else {}
  {
    hide ApplyAll, AnnouncedBy;
    assert (trace + [op])[..|trace|] == trace;
  }

  lemma {:induction false} DueAfterStep(s: System, a: Action)
    requires Sound(s.world) && AmountsAgree(s) && DueOnlyUnannounced(s) && Possible(s, Step(a))
    ensures DueOnlyUnannounced(Next(s, Step(a)))
  {
    var s' := Next(s, Step(a));
    if a.BeginPass? {
      hide CommittedIds, CommittedAmount;
    } else if InReplay(s'.world) {
      hide Announced, CommittedIds, CommittedAmount, Enabled, Act, Announcing, InReplay;
      DueStep(s.world, a, AllocationId(0));
      forall id | id in Announced(s'.begun, s'.pass) ensures id !in s'.world.due || Announcing(s'.world, id) {
        DueStep(s.world, a, id);
      }
    }
  }

  lemma {:induction false} DueAfterJudging(s: System, c: PendingNote)
    requires Sound(s.world) && s.ledger == ApplyAll(s.begun, s.pass) && DueOnlyUnannounced(s) && Possible(s, Judge(c))
    ensures DueOnlyUnannounced(Next(s, Judge(c)))
  {
    var s' := Next(s, Judge(c));
    if InReplay(s'.world) {
      AnnouncedSnoc(s.begun, s.pass, Scan(c, WatchedIds(s'.world)));
      hide Announced, CommittedIds, Enabled, Act, Announcing, InReplay, ApplyAll, Apply;
      DueStep(s.world, LookAgain, AllocationId(0));
      forall id | id in Announced(s'.begun, s'.pass) ensures id !in s'.world.due || Announcing(s'.world, id) {
        DueStep(s.world, LookAgain, id);
      }
    }
  }

  lemma {:induction false} DueAfterCompletion(s: System, e: CommittedNote)
    requires s.ledger == ApplyAll(s.begun, s.pass) && DueOnlyUnannounced(s) && Possible(s, Finish(e))
    ensures DueOnlyUnannounced(Next(s, Finish(e)))
  {
    var s', op := Next(s, Finish(e)), Complete(e);
    var owner := AnnouncedBy(s.ledger, op);
    AnnouncedSnoc(s.begun, s.pass, op);
    if owner.Some? {
      RecordStep(s.world, owner.value, Gained(s.ledger, op, owner.value));
    }
    assert forall id :: !Announcing(s.world, id);
    hide Announced, CommittedIds, Enabled, Act, Announcing, InReplay, ApplyAll, Apply, AnnouncedBy, Gained;
  }

  lemma {:induction false} DueMove(s: System, move: Move)
    requires Sound(s.world) && AmountsAgree(s) && s.ledger == ApplyAll(s.begun, s.pass)
    requires DueOnlyUnannounced(s) && Possible(s, move)
    ensures DueOnlyUnannounced(Next(s, move))
  {
    hide Sound, AmountsAgree, ApplyAll, DueOnlyUnannounced, Possible, Next;
    match move
    case Step(a) => DueAfterStep(s, a);
    case Judge(c) => DueAfterJudging(s, c);
    case Finish(e) => DueAfterCompletion(s, e);
  }

  lemma {:induction false} ConsistentStep(s: System, move: Move)
    requires Consistent(s) && Possible(s, move)
    ensures Consistent(Next(s, move))
  {
    var a := WorldStep(s, move);
    InvariantAt(s.world, Token(0));
    hide Possible, Next, Invariant, AmountsAgree, ApplyAll, WatchedWhileParked, DueOnlyUnannounced, Enabled, Act,
      Booked, Woken, Sound;
    if a.Some? {
      InvariantStep(s.world, a.value);
    }
    AmountsStep(s, move);
    LedgerStep(s, move);
    DueMove(s, move);
    forall t ensures WatchedWhileParked(Next(s, move), t) {
      WatchedStep(s, move, t);
    }
  }

  // ---------------------------------------------------------------------------------------------
  // Over every run of the system
  // ---------------------------------------------------------------------------------------------

  lemma {:induction false} ConsistentRun(l: Ledger, moves: seq<Move>)
    requires PossibleMoves(l, moves)
    ensures Consistent(AfterMoves(l, moves))
    decreases |moves|
  {
    hide Consistent, Next, Possible, Initial;
    if moves == [] {
      StartsConsistent(l);
    } else {
      var n := |moves| - 1;
      ConsistentRun(l, moves[..n]);
      ConsistentStep(AfterMoves(l, moves[..n]), moves[n]);
    }
  }

  /** What the system does to waiters and worker is a run of the machine, so all that holds of those holds
      here. */
  lemma {:induction false} SystemRunsTheMachine(l: Ledger, moves: seq<Move>) returns (run: seq<Action>)
    requires PossibleMoves(l, moves)
    ensures EnabledRun(Amounts(l), run) && AfterRun(Amounts(l), run) == AfterMoves(l, moves).world
    decreases |moves|
  {
    if moves == [] {
      run := [];
    } else {
      var n := |moves| - 1;
      run := SystemRunsTheMachine(l, moves[..n]);
      var a := WorldStep(AfterMoves(l, moves[..n]), moves[n]);
      hide EnabledRun, AfterRun, Next, Possible, Amounts, Enabled, Act;
      if a.Some? {
        RunSnoc(Amounts(l), run, a.value);
        run := run + [a.value];
      }
    }
  }

  /** In every run of the system the worker announces what the ledger holds committed. */
  lemma {:induction false} AnnouncedAmountsAreCommitted(l: Ledger, moves: seq<Move>, id: AllocationId)
    requires PossibleMoves(l, moves)
    ensures var s := AfterMoves(l, moves);
            && Amount(s.world, id) == CommittedAmount(s.ledger, id)
            && (s.world.worker.Read? && s.world.worker.id == id ==>
                  s.world.worker.amount == CommittedAmount(s.ledger, id))
  {
    ConsistentRun(l, moves);
    hide PossibleMoves, AfterMoves, CommittedAmount;
    InvariantAt(AfterMoves(l, moves).world, Token(0));
  }

  /** The running pass is a replay whose trace so far is that of all events served. */
  ghost predicate ReplayHasFinished(s: System, seen: Seen, pendingTrace: seq<Op>, committedTrace: seq<Op>) {
    && s.world.worker.InPass? && s.world.replaying && s.pass == pendingTrace + committedTrace
    && FinishedReplay(seen, pendingTrace, committedTrace)
    && OneOwner(s.pass) && OwnersAgree(s.begun, s.pass)
    && CommittedOnTheIndex(s.begun, FinalPrefix(seen.committed, seen.finalizedThrough))
  }

  lemma {:induction false} NothingDue(s: System, seen: Seen, pendingTrace: seq<Op>,
                                      committedTrace: seq<Op>, id: AllocationId)
    requires DueOnlyUnannounced(s) && ReplayHasFinished(s, seen, pendingTrace, committedTrace)
    ensures id !in s.world.due
  {
    hide FinalPrefix, OwnersAgree, OneOwner, CommittedOnTheIndex, Completes, Judges, BlocksAscend, Announced;
    if id in CommittedIds(s.begun) {
      var key :| key in s.begun.owned && s.begun.owned[key].committed && key.0 == id;
      ReplayAnnouncesAgain(FinalPrefix(seen.committed, seen.finalizedThrough), s.begun, pendingTrace, committedTrace,
                           id, key.1);
    }
  }

  lemma {:induction false} ReplayMayEnd(s: System, seen: Seen, pendingTrace: seq<Op>, committedTrace: seq<Op>)
    requires DueOnlyUnannounced(s) && ReplayHasFinished(s, seen, pendingTrace, committedTrace)
    ensures s.world.due == {} && Enabled(s.world, EndPass)
  {
    hide DueOnlyUnannounced, FinishedReplay, OneOwner, OwnersAgree, CommittedOnTheIndex;
    forall id ensures id !in s.world.due {
      NothingDue(s, seen, pendingTrace, committedTrace, id);
    }
    assert s.world.due == {};
  }

  /** A finished replay may end: nothing is due any more. */
  lemma {:induction false} FinishedReplayMayEnd(l: Ledger, moves: seq<Move>, seen: Seen,
                                                pendingTrace: seq<Op>, committedTrace: seq<Op>)
    requires PossibleMoves(l, moves)
    requires ReplayHasFinished(AfterMoves(l, moves), seen, pendingTrace, committedTrace)
    ensures Enabled(AfterMoves(l, moves).world, EndPass)
  {
    ConsistentRun(l, moves);
    hide PossibleMoves, AfterMoves, Invariant, AmountsAgree, ApplyAll, WatchedWhileParked, DueOnlyUnannounced,
      ReplayHasFinished, Enabled;
    ReplayMayEnd(AfterMoves(l, moves), seen, pendingTrace, committedTrace);
  }

  /** What a waiter waits for has been deposited with finality. */
  ghost predicate DepositsReachTheMinimum(s: System, t: Token, seen: Seen, deposits: seq<PendingNote>) {
    && t in s.world.asked && s.world.asked[t].minimum <= Deposited(deposits) && DistinctNotes(deposits)
    && forall i :: 0 <= i < |deposits| ==>
         && FinalDeposit(seen, s.world.asked[t].id, deposits[i])
         && OneAmount(s.begun, s.pass, s.world.asked[t].id, deposits[i])
  }

  lemma {:induction false} DepositsAreReached(s: System, t: Token, seen: Seen, pendingTrace: seq<Op>,
                                              committedTrace: seq<Op>, deposits: seq<PendingNote>)
    requires AmountsAgree(s) && s.ledger == ApplyAll(s.begun, s.pass)
    requires ReplayHasFinished(s, seen, pendingTrace, committedTrace) && DepositsReachTheMinimum(s, t, seen, deposits)
    requires WatchedThroughout(s.pass, s.world.asked[t].id)
    ensures Reached(s.world, t)
  {
    hide ApplyAll, FinishedReplay, OneOwner, OwnersAgree, CommittedOnTheIndex, FinalPrefix, WatchedThroughout,
      FinalDeposit, OneAmount, CommittedAmount, DistinctNotes;
    FinishedReplayCommitsTheSum(seen, s.begun, pendingTrace, committedTrace, s.world.asked[t].id, deposits);
  }

  /** With nothing due any more, whoever is still parked has not been reached. */
  lemma {:induction false} ParkedIsShort(w: World, t: Token)
    requires Woken(w, t) && w.worker.InPass? && w.replaying && w.due == {} && t in w.covered
    ensures t in w.parked ==> !Reached(w, t)
    ensures t in w.parked || SentTo(w, t) != [] || t in w.cancelled
  {
    hide SentTo, Amount;
  }

  /** Delivery: a waiter that a finished replay started with has been sent an amount, or has given up, if
      final deposits to its allocation reach its minimum. */
  lemma {:induction false} FinalDepositsAreDelivered(l: Ledger, moves: seq<Move>, t: Token, seen: Seen,
                                                     pendingTrace: seq<Op>, committedTrace: seq<Op>,
                                                     deposits: seq<PendingNote>)
    requires PossibleMoves(l, moves)
    requires ReplayHasFinished(AfterMoves(l, moves), seen, pendingTrace, committedTrace)
    requires t in AfterMoves(l, moves).world.covered
    requires DepositsReachTheMinimum(AfterMoves(l, moves), t, seen, deposits)
    ensures var w := AfterMoves(l, moves).world;
            SentTo(w, t) != [] || t in w.cancelled
  {
    ConsistentRun(l, moves);
    hide PossibleMoves, AfterMoves;
    DeliveredIn(AfterMoves(l, moves), t, seen, pendingTrace, committedTrace, deposits);
  }

  lemma {:induction false} DeliveredIn(s: System, t: Token, seen: Seen, pendingTrace: seq<Op>,
                                       committedTrace: seq<Op>, deposits: seq<PendingNote>)
    requires Consistent(s) && ReplayHasFinished(s, seen, pendingTrace, committedTrace)
    requires t in s.world.covered && DepositsReachTheMinimum(s, t, seen, deposits)
    ensures SentTo(s.world, t) != [] || t in s.world.cancelled
  {
    InvariantAt(s.world, t);
    hide Invariant, AmountsAgree, ApplyAll, DueOnlyUnannounced, FinishedReplay, OneOwner, OwnersAgree,
      CommittedOnTheIndex, Woken, Booked, Sound, Enabled, SentTo, Reached, WatchedThroughout, FinalDeposit, OneAmount,
      DistinctNotes;
    ReplayMayEnd(s, seen, pendingTrace, committedTrace);
    ParkedIsShort(s.world, t);
    if t in s.world.parked {
      assert WatchedWhileParked(s, t);
      DepositsAreReached(s, t, seen, pendingTrace, committedTrace, deposits);
    }
  }
}
