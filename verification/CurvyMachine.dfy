/**
 Waiting for Curvy deposits: every interleaving of `watch` calls, cancellations and the one watcher
 task, down to the single reads and writes that the waiter lock does and does not protect.
 */
module CurvyMachine {
  import opened Common

  datatype Token = Token(n: nat)

  datatype AllocationId = AllocationId(n: nat)

  /** What a `watch` call asks for: `id` reaching `minimum` committed value. */
  datatype Waiter = Waiter(id: AllocationId, minimum: nat)

  /** Where a `watch` call is. From `Locked` on it holds the waiter lock. */
  datatype Call = Wanting | Locked | Checked(amount: nat) | Parked | Settled

  /** Where the watcher task is. A completion is recorded, its allocation's amount is read back, and
      only then are waiters told, under the lock. */
  datatype Worker = Idle | Looked | InPass | Recorded(id: AllocationId) | Read(id: AllocationId, amount: nat)

  /** Shared state, with what has happened so far. `recorded` are the allocations some completion was
      recorded for; `due` those a running replay has yet to record and announce again. `missed` are the
      waiters whose minimum was reached when the read-back of a completion failed, with nothing
      announced since; `quiet` those among them it happened to in a pass that was no replay. `covered`
      are the waiters the running replay started with, `served` those a replay has finished for. */
  datatype World = World(
    asked: map<Token, Waiter>, calls: map<Token, Call>, holder: Option<Token>,
    parked: set<Token>, cancelled: set<Token>, sent: map<Token, seq<nat>>,
    ledger: map<AllocationId, nat>, recorded: set<AllocationId>,
    replayFlag: bool, worker: Worker, replaying: bool, due: set<AllocationId>,
    missed: set<Token>, quiet: set<Token>, covered: set<Token>, served: set<Token>)

  datatype Action =
    | BeginWatch(token: Token, waiter: Waiter)
    | TakeLock(token: Token)
    | CheckAmount(token: Token)
    | Refuse(token: Token)       // the read failed, or the allocation is registered under another identity
    | Settle(token: Token)       // answer at once or park
    | RaiseFlag(token: Token)
    | Unlock(token: Token)
    | Cancel(token: Token)
    | Look                       // the watcher's idle check
    | BeginPass
    | LookAgain                  // the check before each candidate
    | Record(id: AllocationId, gained: nat)
    | ReadBack
    | ReadFails
    | Notify
    | EndPass
    | FailPass

  function Amount(w: World, id: AllocationId): nat {
    if id in w.ledger then w.ledger[id] else 0
  }

  /** The amounts `t` has been sent so far. */
  function SentTo(w: World, t: Token): seq<nat> {
    if t in w.sent then w.sent[t] else []
  }

  function PcOf(w: World, t: Token): Option<Call> {
    if t in w.calls then Some(w.calls[t]) else None
  }

  predicate Reached(w: World, t: Token) {
    t in w.asked && w.asked[t].minimum <= Amount(w, w.asked[t].id)
  }

  /** The call has read the amount and found it short. */
  predicate PastCheck(w: World, t: Token) {
    t in w.calls && t in w.asked && w.calls[t].Checked? && w.calls[t].amount < w.asked[t].minimum
  }

  predicate Enabled(w: World, a: Action) {
    match a
    case BeginWatch(t, _) => t !in w.asked
    case TakeLock(t) => PcOf(w, t) == Some(Wanting) && w.holder.None?
    case CheckAmount(t) => PcOf(w, t) == Some(Locked) && t in w.asked
    case Refuse(t) => PcOf(w, t).Some? && (w.calls[t].Locked? || w.calls[t].Checked?)
    case Settle(t) => PcOf(w, t).Some? && w.calls[t].Checked? && t in w.asked
    case RaiseFlag(t) => PcOf(w, t) == Some(Parked)
    case Unlock(t) => PcOf(w, t) == Some(Settled)
    case Cancel(t) => t in w.asked
    // The worker looks at the waiters, and announces to them, only while nobody holds the lock.
    case Look => w.worker.Idle? && w.holder.None?
    case BeginPass => w.worker.Looked?
    case LookAgain => w.worker.InPass? && w.holder.None?
    case Record(_, _) => w.worker.InPass?
    case ReadBack => w.worker.Recorded?
    case ReadFails => w.worker.Recorded?
    case Notify => w.worker.Read? && w.holder.None?
    // A replay that ends without a fault has traversed every final completion, so it has recorded and
    // announced again whatever had been recorded before it began (`CurvyDelivery.ReplayAnnouncesAgain`).
    case EndPass => w.worker.InPass? && (w.replaying ==> w.due == {})
    case FailPass => w.worker.InPass?
  }

  /** The parked waiters that are told when `id` is announced to have `amount`. */
  function Told(w: World, id: AllocationId, amount: nat): set<Token> {
    set t | t in w.parked && t in w.asked && w.asked[t].id == id && w.asked[t].minimum <= amount
  }

  /** Those that leave then: told, or found cancelled. */
  function Leaving(w: World, id: AllocationId, amount: nat): set<Token> {
    set t | t in w.parked && t in w.asked && w.asked[t].id == id
            && (w.asked[t].minimum <= amount || t in w.cancelled)
  }

  /** The waiters of `id`, parked or about to park, whose minimum is reached. */
  function Owed(w: World, id: AllocationId): set<Token> {
    set t | t in w.asked && w.asked[t].id == id && Reached(w, t) && (t in w.parked || PastCheck(w, t))
  }

  function OfOthers(w: World, ts: set<Token>, id: AllocationId): set<Token> {
    set t | t in ts && !(t in w.asked && w.asked[t].id == id)
  }

  function Dropped(w: World, t: Token): World {
    w.(calls := w.calls - {t}, holder := None)
  }

  function Act(w: World, a: Action): World
    requires Enabled(w, a)
  {
    match a
    case BeginWatch(t, waiter) => w.(asked := w.asked[t := waiter], calls := w.calls[t := Wanting])
    case TakeLock(t) => w.(calls := w.calls[t := Locked], holder := Some(t))
    case CheckAmount(t) => w.(calls := w.calls[t := Checked(Amount(w, w.asked[t].id))])
    case Refuse(t) => Dropped(w, t)
    case Settle(t) =>
      var amount := w.calls[t].amount;
      if amount >= w.asked[t].minimum then
        w.(calls := w.calls[t := Settled], sent := w.sent[t := SentTo(w, t) + [amount]])
      else w.(calls := w.calls[t := Parked], parked := w.parked + {t})
    case RaiseFlag(t) => w.(calls := w.calls[t := Settled], replayFlag := true)
    case Unlock(t) => Dropped(w, t)
    case Cancel(t) => w.(cancelled := w.cancelled + {t})
    case Look =>
      var left := w.parked - w.cancelled;
      w.(parked := left, worker := if left == {} then Idle else Looked)
    case BeginPass =>
      w.(worker := InPass, replaying := w.replayFlag, replayFlag := false,
         due := if w.replayFlag then w.recorded else {},
         covered := if w.replayFlag then w.parked else {})
    case LookAgain =>
      var left := w.parked - w.cancelled;
      w.(parked := left, worker := if left == {} then Idle else InPass)
    case Record(id, gained) =>
      w.(worker := Recorded(id), ledger := w.ledger[id := Amount(w, id) + gained], recorded := w.recorded + {id})
    case ReadBack => w.(worker := Read(w.worker.id, Amount(w, w.worker.id)))
    case ReadFails =>
      var owed := Owed(w, w.worker.id);
      w.(worker := Idle, replayFlag := w.replayFlag || w.replaying, missed := w.missed + owed,
         quiet := if w.replaying then w.quiet else w.quiet + owed)
    case Notify =>
      var id, amount := w.worker.id, w.worker.amount;
      var told := Told(w, id, amount);
      w.(worker := InPass, parked := w.parked - Leaving(w, id, amount), due := w.due - {id},
         sent := map t | t in w.sent.Keys + told :: SentTo(w, t) + if t in told then [amount] else [],
         missed := OfOthers(w, w.missed, id), quiet := OfOthers(w, w.quiet, id))
    case EndPass => w.(worker := Idle, served := if w.replaying then w.served + w.covered else w.served)
    case FailPass => w.(worker := Idle, replayFlag := w.replayFlag || w.replaying)
  }

  /** The watcher starts, or starts again, over a durable ledger. */
  function Start(durable: map<AllocationId, nat>): World {
    World(map[], map[], None, {}, {}, map[], durable, durable.Keys, false, Idle, false, {}, {}, {}, {}, {})
  }

  ghost predicate EnabledRun(durable: map<AllocationId, nat>, run: seq<Action>)
    decreases |run|, 0
  {
    var n := |run| - 1;
    run == [] || (EnabledRun(durable, run[..n]) && Enabled(AfterRun(durable, run[..n]), run[n]))
  }

  /** Where a run from the start ends. */
  ghost function AfterRun(durable: map<AllocationId, nat>, run: seq<Action>): World
    requires EnabledRun(durable, run)
    decreases |run|, 1
  {
    if run == [] then Start(durable) else Act(AfterRun(durable, run[..|run| - 1]), run[|run| - 1])
  }

  // ---------------------------------------------------------------------------------------------
  // What always holds of one waiter
  // ---------------------------------------------------------------------------------------------

  /** The lock is held by exactly the call that is past `Wanting`. */
  ghost predicate LockFor(w: World, t: Token) {
    && (t in w.calls ==> t in w.asked && (w.calls[t] != Wanting <==> w.holder == Some(t)))
    && (w.holder == Some(t) ==> t in w.calls)
    && (t in w.parked ==> t in w.asked)
    && (t in w.calls && w.calls[t].Parked? ==> t in w.parked)
  }

  /** The call has neither answered nor parked yet. */
  predicate Undecided(w: World, t: Token) {
    t in w.calls && (w.calls[t].Wanting? || w.calls[t].Locked? || w.calls[t].Checked?)
  }

  /** `t` is sent at most once, at least the minimum it asked for and no more than was committed. */
  ghost predicate SentFor(w: World, t: Token) {
    && |SentTo(w, t)| <= 1
    && (t in w.parked || Undecided(w, t) || t !in w.asked ==> SentTo(w, t) == [])
    && (Undecided(w, t) ==> t !in w.parked)
    && (SentTo(w, t) != [] ==> t in w.asked && w.asked[t].minimum <= SentTo(w, t)[0] <= Amount(w, w.asked[t].id))
    && (t in w.calls && t in w.asked && w.calls[t].Checked? ==> w.calls[t].amount <= Amount(w, w.asked[t].id))
  }

  /** The worker is about to announce what `id` has reached. */
  ghost predicate Announcing(w: World, id: AllocationId) {
    w.worker == Recorded(id) || w.worker == Read(id, Amount(w, id))
  }

  ghost predicate AboutToHear(w: World, t: Token) { t in w.asked && Announcing(w, w.asked[t].id) }

  /** A waiter that is parked, or on its way there, with its minimum reached has an announcement coming or
      has missed one; one that has missed an announcement has its minimum reached. */
  ghost predicate MissedFor(w: World, t: Token) {
    && (t in w.quiet ==> t in w.missed)
    && (t in w.missed ==> Reached(w, t))
    && (Reached(w, t) && (t in w.parked || PastCheck(w, t)) ==> Announcing(w, w.asked[t].id) || t in w.missed)
  }

  /** Only a positive minimum is waited for. */
  ghost predicate PositiveFor(w: World, t: Token) {
    t in w.parked && t in w.asked ==> w.asked[t].minimum > 0
  }

  ghost predicate InReplay(w: World) { w.replaying && !w.worker.Idle? && !w.worker.Looked? }

  /** The historical replay a waiter needs is requested, about to be requested by its own call, running
      since after it parked, or finished. */
  ghost predicate ReplaySecured(w: World, t: Token) {
    w.replayFlag || PcOf(w, t) == Some(Parked) || (InReplay(w) && t in w.covered) || t in w.served
  }

  /** A parked waiter whose minimum is reached has an announcement coming, has quietly missed one, or a
      replay that will announce again is requested, about to be, or running. */
  ghost predicate RescuedFor(w: World, t: Token) {
    t in w.parked && Reached(w, t) ==>
      || Announcing(w, w.asked[t].id) || t in w.quiet
      || w.replayFlag || PcOf(w, t) == Some(Parked)
      || (InReplay(w) && w.asked[t].id in w.due)
  }

  /** A replay loses none of the waiters it started with, and has an announcement before it for each of
      them that is still parked with its minimum reached. */
  ghost predicate CoveredFor(w: World, t: Token) {
    && (t in w.covered ==>
          t in w.asked && !Undecided(w, t) && (t in w.parked || SentTo(w, t) != [] || t in w.cancelled))
    && (InReplay(w) && t in w.covered && t in w.parked && Reached(w, t) ==>
          Announcing(w, w.asked[t].id) || w.asked[t].id in w.due)
  }

  ghost predicate Booked(w: World, t: Token) { LockFor(w, t) && SentFor(w, t) && PositiveFor(w, t) }

  ghost predicate Woken(w: World, t: Token) {
    && MissedFor(w, t) && RescuedFor(w, t) && CoveredFor(w, t)
    && (t in w.parked ==> ReplaySecured(w, t))
  }

  /** What was read back is current, and what has been committed was recorded. */
  ghost predicate Sound(w: World) {
    (w.worker.Read? ==> w.worker.amount == Amount(w, w.worker.id)) && w.ledger.Keys <= w.recorded
  }

  ghost predicate Invariant(w: World) {
    Sound(w) && forall t :: Booked(w, t) && Woken(w, t)
  }

  // ---------------------------------------------------------------------------------------------
  // Every action keeps it, one action at a time
  // ---------------------------------------------------------------------------------------------

  ghost predicate Keeps(w: World, a: Action, t: Token)
    requires Enabled(w, a)
  {
    Booked(Act(w, a), t) && Woken(Act(w, a), t) && Sound(Act(w, a))
  }

  lemma {:induction false} BeginWatchKeeps(w: World, u: Token, waiter: Waiter, t: Token)
    requires Sound(w) && Booked(w, t) && Woken(w, t) && Enabled(w, BeginWatch(u, waiter))
    ensures Keeps(w, BeginWatch(u, waiter), t)
  {}

  lemma {:induction false} TakeLockKeeps(w: World, u: Token, t: Token)
    requires Sound(w) && Booked(w, t) && Woken(w, t) && Booked(w, u) && Enabled(w, TakeLock(u))
    ensures Keeps(w, TakeLock(u), t)
  {}

  lemma {:induction false} CheckAmountKeeps(w: World, u: Token, t: Token)
    requires Sound(w) && Booked(w, t) && Woken(w, t) && Booked(w, u) && Enabled(w, CheckAmount(u))
    ensures Keeps(w, CheckAmount(u), t)
  {}

  lemma {:induction false} RefuseKeeps(w: World, u: Token, t: Token)
    requires Sound(w) && Booked(w, t) && Woken(w, t) && Booked(w, u) && Enabled(w, Refuse(u))
    ensures Keeps(w, Refuse(u), t)
  {}

  /** What a step of another call leaves alone. */
  ghost predicate Undisturbed(w: World, w': World, t: Token) {
    && PcOf(w, t) == PcOf(w', t) && SentTo(w, t) == SentTo(w', t) && (t in w.parked <==> t in w'.parked)
    && w'.(calls := w.calls, sent := w.sent, parked := w.parked) == w
  }

  lemma {:induction false} SettleTouchesOne(w: World, u: Token, t: Token)
    requires Enabled(w, Settle(u)) && u != t
    ensures Undisturbed(w, Act(w, Settle(u)), t)
  {}

  /** Whoever settles, the others are left alone. */
  lemma {:induction false} SettleKeepsOthers(w: World, u: Token, t: Token)
    requires Sound(w) && Booked(w, t) && Woken(w, t) && Enabled(w, Settle(u)) && u != t
    ensures Keeps(w, Settle(u), t)
  {
    SettleTouchesOne(w, u, t);
    hide Act, Enabled, SentTo;
  }

  lemma {:induction false} AnswerKeepsOwn(w: World, t: Token)
    requires Sound(w) && Booked(w, t) && Woken(w, t) && Enabled(w, Settle(t))
    requires w.calls[t].amount >= w.asked[t].minimum
    ensures Keeps(w, Settle(t), t)
  {}

  lemma {:induction false} ParkKeepsOwn(w: World, t: Token)
    requires Sound(w) && Booked(w, t) && Woken(w, t) && Enabled(w, Settle(t))
    requires w.calls[t].amount < w.asked[t].minimum
    ensures Keeps(w, Settle(t), t)
  {}

  lemma {:induction false} SettleKeeps(w: World, u: Token, t: Token)
    requires Sound(w) && Booked(w, t) && Woken(w, t) && Enabled(w, Settle(u))
    ensures Keeps(w, Settle(u), t)
  {
    hide Keeps, Booked, Woken;
    if u != t {
      SettleKeepsOthers(w, u, t);
    } else if w.calls[t].amount >= w.asked[t].minimum {
      AnswerKeepsOwn(w, t);
    } else {
      ParkKeepsOwn(w, t);
    }
  }

  lemma {:induction false} RaiseFlagKeeps(w: World, u: Token, t: Token)
    requires Sound(w) && Booked(w, t) && Woken(w, t) && Booked(w, u) && Enabled(w, RaiseFlag(u))
    ensures Keeps(w, RaiseFlag(u), t)
  {}

  lemma {:induction false} UnlockKeeps(w: World, u: Token, t: Token)
    requires Sound(w) && Booked(w, t) && Woken(w, t) && Booked(w, u) && Enabled(w, Unlock(u))
    ensures Keeps(w, Unlock(u), t)
  {}

  lemma {:induction false} CancelKeeps(w: World, u: Token, t: Token)
    requires Sound(w) && Booked(w, t) && Woken(w, t) && Enabled(w, Cancel(u))
    ensures Keeps(w, Cancel(u), t)
  {}

  lemma {:induction false} LookKeeps(w: World, t: Token)
    requires Sound(w) && Booked(w, t) && Woken(w, t) && Enabled(w, Look)
    ensures Keeps(w, Look, t)
  {}

  lemma {:induction false} BeginPassKeeps(w: World, t: Token)
    requires Sound(w) && Booked(w, t) && Woken(w, t) && Enabled(w, BeginPass)
    ensures Keeps(w, BeginPass, t)
  {}

  lemma {:induction false} LookAgainKeeps(w: World, t: Token)
    requires Sound(w) && Booked(w, t) && Woken(w, t) && Enabled(w, LookAgain)
    ensures Keeps(w, LookAgain, t)
  {}

  lemma {:induction false} RecordKeeps(w: World, id: AllocationId, gained: nat, t: Token)
    requires Sound(w) && Booked(w, t) && Woken(w, t) && Enabled(w, Record(id, gained))
    ensures Keeps(w, Record(id, gained), t)
  {}

  lemma {:induction false} ReadBackKeeps(w: World, t: Token)
    requires Sound(w) && Booked(w, t) && Woken(w, t) && Enabled(w, ReadBack)
    ensures Keeps(w, ReadBack, t)
  {}

  lemma {:induction false} ReadFailsKeeps(w: World, t: Token)
    requires Sound(w) && Booked(w, t) && Woken(w, t) && Enabled(w, ReadFails)
    ensures Keeps(w, ReadFails, t)
  {}

  lemma {:induction false} NotifyKeeps(w: World, t: Token)
    requires Sound(w) && Booked(w, t) && Woken(w, t) && Enabled(w, Notify)
    ensures Keeps(w, Notify, t)
  {}

  lemma {:induction false} EndPassKeeps(w: World, t: Token)
    requires Sound(w) && Booked(w, t) && Woken(w, t) && Enabled(w, EndPass)
    ensures Keeps(w, EndPass, t)
  {}

  lemma {:induction false} FailPassKeeps(w: World, t: Token)
    requires Sound(w) && Booked(w, t) && Woken(w, t) && Enabled(w, FailPass)
    ensures Keeps(w, FailPass, t)
  {}

  lemma {:induction false} InvariantAt(w: World, t: Token)
    requires Invariant(w)
    ensures Sound(w) && Booked(w, t) && Woken(w, t)
  {}

  lemma {:induction false} StepKeeps(w: World, a: Action, t: Token)
    requires Invariant(w) && Enabled(w, a)
    ensures Keeps(w, a, t)
  {
    hide Enabled, Act, Invariant, Sound, Booked, Woken, Keeps;
    InvariantAt(w, t);
    match a
    case BeginWatch(u, waiter) => BeginWatchKeeps(w, u, waiter, t);
    case TakeLock(u) => InvariantAt(w, u); TakeLockKeeps(w, u, t);
    case CheckAmount(u) => InvariantAt(w, u); CheckAmountKeeps(w, u, t);
    case Refuse(u) => InvariantAt(w, u); RefuseKeeps(w, u, t);
    case Settle(u) => SettleKeeps(w, u, t);
    case RaiseFlag(u) => InvariantAt(w, u); RaiseFlagKeeps(w, u, t);
    case Unlock(u) => InvariantAt(w, u); UnlockKeeps(w, u, t);
    case Cancel(u) => CancelKeeps(w, u, t);
    case Look => LookKeeps(w, t);
    case BeginPass => BeginPassKeeps(w, t);
    case LookAgain => LookAgainKeeps(w, t);
    case Record(id, gained) => RecordKeeps(w, id, gained, t);
    case ReadBack => ReadBackKeeps(w, t);
    case ReadFails => ReadFailsKeeps(w, t);
    case Notify => NotifyKeeps(w, t);
    case EndPass => EndPassKeeps(w, t);
    case FailPass => FailPassKeeps(w, t);
  }

  lemma {:induction false} InvariantStep(w: World, a: Action)
    requires Invariant(w) && Enabled(w, a)
    ensures Invariant(Act(w, a))
  {
    var w' := Act(w, a);
    hide Act, Enabled, Booked, Woken, Sound;
    forall t ensures Sound(w') && Booked(w', t) && Woken(w', t) {
      StepKeeps(w, a, t);
    }
    StepKeeps(w, a, Token(0));
  }

  // ---------------------------------------------------------------------------------------------
  // Over every run
  // ---------------------------------------------------------------------------------------------

  lemma {:induction false} StartsRight(durable: map<AllocationId, nat>)
    ensures Invariant(Start(durable))
  {}

  lemma {:induction false} InvariantRun(durable: map<AllocationId, nat>, run: seq<Action>)
    requires EnabledRun(durable, run)
    ensures Invariant(AfterRun(durable, run))
    decreases |run|
  {
    hide Invariant, Act, Enabled, Start;
    if run == [] {
      StartsRight(durable);
    } else {
      var n := |run| - 1;
      InvariantRun(durable, run[..n]);
      InvariantStep(AfterRun(durable, run[..n]), run[n]);
    }
  }

  lemma {:induction false} PrefixRuns(durable: map<AllocationId, nat>, run: seq<Action>, i: nat)
    requires EnabledRun(durable, run) && i <= |run|
    ensures EnabledRun(durable, run[..i]) && (i < |run| ==> Enabled(AfterRun(durable, run[..i]), run[i]))
    decreases |run|
  {
    hide Enabled, Act;
    var n := |run| - 1;
    if i < n {
      PrefixRuns(durable, run[..n], i);
      assert run[..n][..i] == run[..i];
    } else if i > n {
      assert run[..i] == run;
    }
  }

  /** Where the run stands before its step `i`. */
  ghost function Before(durable: map<AllocationId, nat>, run: seq<Action>, i: nat): (w: World)
    requires EnabledRun(durable, run) && i <= |run|
    ensures i < |run| ==> Enabled(w, run[i])
  {
    PrefixRuns(durable, run, i);
    AfterRun(durable, run[..i])
  }

  lemma {:induction false} BeforeOfAPrefix(durable: map<AllocationId, nat>, run: seq<Action>, n: nat, i: nat)
    requires EnabledRun(durable, run) && i <= n <= |run|
    ensures EnabledRun(durable, run[..n]) && Before(durable, run[..n], i) == Before(durable, run, i)
  {
    hide Enabled, Act, EnabledRun, AfterRun;
    PrefixRuns(durable, run, n);
    assert run[..n][..i] == run[..i];
  }

  lemma {:induction false} LastStep(durable: map<AllocationId, nat>, run: seq<Action>)
    requires EnabledRun(durable, run) && run != []
    ensures var w := Before(durable, run, |run| - 1);
            Enabled(w, run[|run| - 1]) && AfterRun(durable, run) == Act(w, run[|run| - 1])
  {
    hide Enabled, Act;
  }

  /** At step `i` the amount of `t`'s allocation could not be read back although its minimum was reached;
      with `quietly`, in a pass that was no replay. */
  ghost predicate FailsAt(durable: map<AllocationId, nat>, run: seq<Action>, t: Token, quietly: bool, i: nat)
    requires EnabledRun(durable, run) && i < |run|
  {
    var w := Before(durable, run, i);
    run[i].ReadFails? && t in Owed(w, w.worker.id) && !(quietly && w.replaying)
  }

  ghost predicate AnnouncedAt(durable: map<AllocationId, nat>, run: seq<Action>, id: AllocationId, j: nat)
    requires EnabledRun(durable, run) && j < |run|
  {
    run[j].Notify? && Before(durable, run, j).worker.id == id
  }

  /** Nothing has been announced for `id` after step `i`. */
  ghost predicate SilentSince(durable: map<AllocationId, nat>, run: seq<Action>, id: AllocationId, i: nat)
    requires EnabledRun(durable, run)
  {
    forall j: nat :: i < j < |run| ==> !AnnouncedAt(durable, run, id, j)
  }

  /** A read-back failed for `t` at step `i`, and nothing has been announced for its allocation since. */
  ghost predicate MissedAt(durable: map<AllocationId, nat>, run: seq<Action>, t: Token, quietly: bool, i: nat)
    requires EnabledRun(durable, run)
  {
    && i < |run| && FailsAt(durable, run, t, quietly, i)
    && SilentSince(durable, run, Before(durable, run, i).worker.id, i)
  }

  ghost predicate EverMissed(durable: map<AllocationId, nat>, run: seq<Action>, t: Token, quietly: bool)
    requires EnabledRun(durable, run)
  {
    exists i :: MissedAt(durable, run, t, quietly, i)
  }

  function Marks(w: World, quietly: bool): set<Token> {
    if quietly then w.quiet else w.missed
  }

  predicate Asks(w: World, t: Token, id: AllocationId) {
    t in w.asked && w.asked[t].id == id
  }

  /** What one step does to the marks. */
  lemma {:induction false} MarksStep(w: World, a: Action, t: Token, quietly: bool)
    requires Enabled(w, a)
    ensures t in Marks(Act(w, a), quietly) <==>
              || (t in Marks(w, quietly) && !(a.Notify? && Asks(w, t, w.worker.id)))
              || (a.ReadFails? && t in Owed(w, w.worker.id) && !(quietly && w.replaying))
  {
    hide Owed, Told, Leaving, SentTo, Amount, PcOf;
  }

  lemma {:induction false} AskedStep(w: World, a: Action, t: Token, id: AllocationId)
    requires Enabled(w, a) && Asks(w, t, id)
    ensures Asks(Act(w, a), t, id)
  {
    hide Owed, Told, Leaving, SentTo, Amount, PcOf, OfOthers;
  }

  lemma {:induction false} AskedStays(durable: map<AllocationId, nat>, run: seq<Action>,
                                      i: nat, t: Token, id: AllocationId)
    requires EnabledRun(durable, run) && i <= |run| && Asks(Before(durable, run, i), t, id)
    ensures Asks(AfterRun(durable, run), t, id)
    decreases |run|
  {
    hide Asks, Enabled, Act;
    var n := |run| - 1;
    if i == |run| {
      assert run[..i] == run;
    } else {
      BeforeOfAPrefix(durable, run, n, i);
      AskedStays(durable, run[..n], i, t, id);
      LastStep(durable, run);
      AskedStep(AfterRun(durable, run[..n]), run[n], t, id);
    }
  }

  lemma {:induction false} SilentStep(durable: map<AllocationId, nat>, run: seq<Action>, id: AllocationId, i: nat)
    requires EnabledRun(durable, run) && i < |run| - 1 && EnabledRun(durable, run[..|run| - 1])
    ensures var n := |run| - 1;
            SilentSince(durable, run, id, i) <==>
              SilentSince(durable, run[..n], id, i) && !AnnouncedAt(durable, run, id, n)
  {
    var n: nat := |run| - 1;
    hide EnabledRun, AfterRun;
    forall j: nat | j < n
      ensures AnnouncedAt(durable, run[..n], id, j) <==> AnnouncedAt(durable, run, id, j)
    {
      BeforeOfAPrefix(durable, run, n, j);
    }
    hide AnnouncedAt;
  }

  /** The miss at `i` is still one, unless the last step announces the waiter's allocation. */
  lemma {:induction false} MissStays(durable: map<AllocationId, nat>, run: seq<Action>, t: Token, quietly: bool, i: nat)
    requires EnabledRun(durable, run) && i < |run| - 1 && EnabledRun(durable, run[..|run| - 1])
    ensures var n := |run| - 1;
            var w := Before(durable, run, n);
            MissedAt(durable, run, t, quietly, i) <==>
              MissedAt(durable, run[..n], t, quietly, i) && !(run[n].Notify? && Asks(w, t, w.worker.id))
  {
    var n := |run| - 1;
    var w := Before(durable, run, i);
    BeforeOfAPrefix(durable, run, n, i);
    assert AfterRun(durable, run[..n]) == Before(durable, run, n);
    hide EnabledRun, AfterRun, Before, Act, Enabled, Reached, PastCheck, SilentSince;
    if run[i].ReadFails? && t in Owed(w, w.worker.id) {
      AskedStays(durable, run[..n], i, t, w.worker.id);
      SilentStep(durable, run, w.worker.id, i);
    }
  }

  lemma {:induction false} MissGoesBack(durable: map<AllocationId, nat>, run: seq<Action>, t: Token, quietly: bool)
    requires EnabledRun(durable, run) && run != [] && EnabledRun(durable, run[..|run| - 1])
    requires EverMissed(durable, run, t, quietly) && !FailsAt(durable, run, t, quietly, |run| - 1)
    ensures var n := |run| - 1;
            var w := Before(durable, run, n);
            EverMissed(durable, run[..n], t, quietly) && !(run[n].Notify? && Asks(w, t, w.worker.id))
  {
    var i :| MissedAt(durable, run, t, quietly, i);
    hide EnabledRun, AfterRun, FailsAt, Before, SilentSince;
    MissStays(durable, run, t, quietly, i);
  }

  lemma {:induction false} MissGoesOn(durable: map<AllocationId, nat>, run: seq<Action>, t: Token, quietly: bool)
    requires EnabledRun(durable, run) && run != [] && EnabledRun(durable, run[..|run| - 1])
    requires EverMissed(durable, run[..|run| - 1], t, quietly)
    requires var n := |run| - 1;
             var w := Before(durable, run, n);
             !(run[n].Notify? && Asks(w, t, w.worker.id))
    ensures EverMissed(durable, run, t, quietly)
  {
    var i :| MissedAt(durable, run[..|run| - 1], t, quietly, i);
    hide EnabledRun, AfterRun, FailsAt, Before, SilentSince;
    MissStays(durable, run, t, quietly, i);
  }

  /** One more step changes the marks and the history of failures alike. */
  lemma {:induction false} EverMissedStep(durable: map<AllocationId, nat>, run: seq<Action>, t: Token, quietly: bool)
    requires EnabledRun(durable, run) && run != [] && EnabledRun(durable, run[..|run| - 1])
    ensures var n := |run| - 1;
            var w := Before(durable, run, n);
            EverMissed(durable, run, t, quietly) <==>
              || (EverMissed(durable, run[..n], t, quietly) && !(run[n].Notify? && Asks(w, t, w.worker.id)))
              || FailsAt(durable, run, t, quietly, n)
  {
    var n := |run| - 1;
    var w := Before(durable, run, n);
    hide EnabledRun, AfterRun, FailsAt, Before, Asks, EverMissed;
    if FailsAt(durable, run, t, quietly, n) {
      FailureIsAMiss(durable, run, t, quietly);
    } else if EverMissed(durable, run, t, quietly) {
      MissGoesBack(durable, run, t, quietly);
    } else if EverMissed(durable, run[..n], t, quietly) && !(run[n].Notify? && Asks(w, t, w.worker.id)) {
      MissGoesOn(durable, run, t, quietly);
    }
  }

  lemma {:induction false} FailureIsAMiss(durable: map<AllocationId, nat>, run: seq<Action>, t: Token, quietly: bool)
    requires EnabledRun(durable, run) && run != [] && FailsAt(durable, run, t, quietly, |run| - 1)
    ensures EverMissed(durable, run, t, quietly)
  {
    hide EnabledRun, AfterRun, FailsAt, Before;
    assert MissedAt(durable, run, t, quietly, |run| - 1);
  }

  /** The marks are exactly the failures of the run. */
  lemma {:induction false} MarksAreHistory(durable: map<AllocationId, nat>, run: seq<Action>, t: Token, quietly: bool)
    requires EnabledRun(durable, run)
    ensures t in Marks(AfterRun(durable, run), quietly) <==> EverMissed(durable, run, t, quietly)
    decreases |run|
  {
    if run != [] {
      var n := |run| - 1;
      LastStep(durable, run);
      MarksStep(Before(durable, run, n), run[n], t, quietly);
      MarksAreHistory(durable, run[..n], t, quietly);
      assert AfterRun(durable, run[..n]) == Before(durable, run, n);
      EverMissedStep(durable, run, t, quietly);
      hide EnabledRun, AfterRun, Enabled, Act, Marks, Owed, EverMissed, Before;
    }
  }

  // ---------------------------------------------------------------------------------------------
  // What a waiter can count on
  // ---------------------------------------------------------------------------------------------

  /** No wakeup is lost but by a failed read-back: in every run, while the worker is not about to announce
      its allocation, a parked waiter's minimum is reached if and only if the read-back of a completion
      failed after it was reached, with nothing announced for its allocation since. */
  lemma {:induction false} NoLostWakeup(durable: map<AllocationId, nat>, run: seq<Action>, t: Token)
    requires EnabledRun(durable, run) && t in AfterRun(durable, run).parked
    requires !AboutToHear(AfterRun(durable, run), t)
    ensures Reached(AfterRun(durable, run), t) <==> EverMissed(durable, run, t, false)
  {
    InvariantRun(durable, run);
    MarksAreHistory(durable, run, t, false);
    hide EnabledRun, AfterRun, EverMissed, Amount;
    InvariantAt(AfterRun(durable, run), t);
  }

  /** Forgotten for good, exactly: in every run at rest, with no replay requested or about to be by the
      waiter's own call, a parked waiter's minimum is reached if and only if such a read-back failed in a
      pass that was no replay. What fails in a replay is repeated. */
  lemma {:induction false} ForgottenExactly(durable: map<AllocationId, nat>, run: seq<Action>, t: Token)
    requires EnabledRun(durable, run) && t in AfterRun(durable, run).parked
    requires AfterRun(durable, run).worker.Idle? && !AfterRun(durable, run).replayFlag
    requires PcOf(AfterRun(durable, run), t) != Some(Parked)
    ensures Reached(AfterRun(durable, run), t) <==> EverMissed(durable, run, t, true)
  {
    InvariantRun(durable, run);
    MarksAreHistory(durable, run, t, true);
    hide EnabledRun, AfterRun, EverMissed, Amount;
    InvariantAt(AfterRun(durable, run), t);
  }

  /** In every run each waiter is sent at most one amount: at least its minimum, and no more than the
      ledger holds committed for its allocation. */
  lemma {:induction false} SentAtMostOnce(durable: map<AllocationId, nat>, run: seq<Action>, t: Token)
    requires EnabledRun(durable, run)
    ensures var w := AfterRun(durable, run);
            && |SentTo(w, t)| <= 1
            && (SentTo(w, t) != [] ==>
                  && t in w.asked && t !in w.parked
                  && w.asked[t].minimum <= SentTo(w, t)[0] <= Amount(w, w.asked[t].id))
  {
    InvariantRun(durable, run);
    hide EnabledRun, AfterRun, Amount;
    InvariantAt(AfterRun(durable, run), t);
  }

  /** Replay is never lost: in every run, a parked waiter has its historical replay requested, about to
      be requested by its own call, running since after it parked, or completed. */
  lemma {:induction false} ReplayIsNeverLost(durable: map<AllocationId, nat>, run: seq<Action>, t: Token)
    requires EnabledRun(durable, run)
    ensures t in AfterRun(durable, run).parked ==> ReplaySecured(AfterRun(durable, run), t)
  {
    InvariantRun(durable, run);
    hide EnabledRun, AfterRun, ReplaySecured;
    InvariantAt(AfterRun(durable, run), t);
  }

  lemma {:induction false} PassStep(w: World, a: Action)
    requires Enabled(w, a) && !a.BeginPass?
    ensures Act(w, a).covered == w.covered && Act(w, a).replaying == w.replaying
  {
    hide Owed, Told, Leaving, SentTo, Amount, PcOf, OfOthers;
  }

  /** Since the pass began at step `k`, it is the same pass. */
  lemma {:induction false} SamePass(durable: map<AllocationId, nat>, run: seq<Action>, k: nat)
    requires EnabledRun(durable, run) && k < |run| && run[k] == BeginPass
    requires forall j :: k < j < |run| ==> run[j] != BeginPass
    ensures var w := Before(durable, run, k);
            && AfterRun(durable, run).replaying == w.replayFlag
            && (w.replayFlag ==> AfterRun(durable, run).covered == w.parked)
    decreases |run|
  {
    var n := |run| - 1;
    LastStep(durable, run);
    if k < n {
      BeforeOfAPrefix(durable, run, n, k);
      SamePass(durable, run[..n], k);
      PassStep(Before(durable, run, n), run[n]);
      hide Enabled, Act;
    }
  }

  /** Delivery by replay: a waiter that was parked when a replay began, and whose minimum is reached when
      that replay may end, has been sent its amount by then, or has given up. */
  lemma {:induction false} DeliveredByReplay(durable: map<AllocationId, nat>, run: seq<Action>, k: nat, t: Token)
    requires EnabledRun(durable, run) && k < |run| && run[k] == BeginPass
    requires Before(durable, run, k).replayFlag && t in Before(durable, run, k).parked
    requires forall j :: k < j < |run| ==> run[j] != BeginPass
    requires Enabled(AfterRun(durable, run), EndPass) && Reached(AfterRun(durable, run), t)
    ensures SentTo(AfterRun(durable, run), t) != [] || t in AfterRun(durable, run).cancelled
  {
    InvariantRun(durable, run);
    SamePass(durable, run, k);
    hide EnabledRun, AfterRun, Before, Amount, SentTo;
    InvariantAt(AfterRun(durable, run), t);
  }

  // ---------------------------------------------------------------------------------------------
  // What a failed read-back costs
  // ---------------------------------------------------------------------------------------------

  lemma {:induction false} RunSnoc(durable: map<AllocationId, nat>, run: seq<Action>, a: Action)
    requires EnabledRun(durable, run) && Enabled(AfterRun(durable, run), a)
    ensures EnabledRun(durable, run + [a])
    ensures AfterRun(durable, run + [a]) == Act(AfterRun(durable, run), a)
  {
    hide Act, Enabled;
    assert (run + [a])[..|run|] == run;
  }

  /** A waiter parked, its replay complete, and an incremental pass about to find its deposit. */
  ghost function BeforeTheFailure(t: Token, waiter: Waiter): World {
    Start(map[]).(asked := map[t := waiter], parked := {t}, worker := InPass, served := {t})
  }

  lemma {:induction false} Parks(t: Token, waiter: Waiter) returns (run: seq<Action>)
    requires waiter.minimum > 0
    ensures EnabledRun(map[], run)
    ensures AfterRun(map[], run)
         == Start(map[]).(asked := map[t := waiter], calls := map[t := Parked], holder := Some(t), parked := {t})
  {
    run := [];
    assert EnabledRun(map[], run) && AfterRun(map[], run) == Start(map[]);
    hide EnabledRun, AfterRun;
    RunSnoc(map[], run, BeginWatch(t, waiter));
    run := run + [BeginWatch(t, waiter)];
    RunSnoc(map[], run, TakeLock(t));
    run := run + [TakeLock(t)];
    RunSnoc(map[], run, CheckAmount(t));
    run := run + [CheckAmount(t)];
    RunSnoc(map[], run, Settle(t));
    run := run + [Settle(t)];
  }

  lemma {:induction false} ParksAndLeaves(t: Token, waiter: Waiter) returns (run: seq<Action>)
    requires waiter.minimum > 0
    ensures EnabledRun(map[], run)
    ensures AfterRun(map[], run) == Start(map[]).(asked := map[t := waiter], parked := {t}, replayFlag := true)
  {
    hide EnabledRun, AfterRun;
    run := Parks(t, waiter);
    RunSnoc(map[], run, RaiseFlag(t));
    run := run + [RaiseFlag(t)];
    RunSnoc(map[], run, Unlock(t));
    run := run + [Unlock(t)];
    assert AfterRun(map[], run).calls == map[];
  }

  lemma {:induction false} ParksAndReplays(t: Token, waiter: Waiter) returns (run: seq<Action>)
    requires waiter.minimum > 0
    ensures EnabledRun(map[], run) && AfterRun(map[], run) == BeforeTheFailure(t, waiter)
  {
    hide EnabledRun, AfterRun;
    run := ParksAndLeaves(t, waiter);
    var all := Start(map[]).(asked := map[t := waiter], parked := {t});
    assert t in all.parked - all.cancelled;
    RunSnoc(map[], run, Look);
    run := run + [Look];
    RunSnoc(map[], run, BeginPass);
    run := run + [BeginPass];
    assert AfterRun(map[], run) == all.(worker := InPass, replaying := true, covered := {t});
    RunSnoc(map[], run, EndPass);
    run := run + [EndPass];
    assert AfterRun(map[], run) == all.(replaying := true, covered := {t}, served := {t});
    RunSnoc(map[], run, Look);
    run := run + [Look];
    RunSnoc(map[], run, BeginPass);
    run := run + [BeginPass];
  }

  /** A read-back that fails in an incremental pass does lose a wakeup: any waiter can end up parked with
      its minimum committed, the worker idle and no replay requested. */
  lemma {:induction false} FailedReadLosesTheWakeup(t: Token, waiter: Waiter)
    requires waiter.minimum > 0
    ensures exists run :: EnabledRun(map[], run)
              && var w := AfterRun(map[], run);
                 && t in w.parked && t in w.asked && w.asked[t] == waiter && Reached(w, t)
                 && w.worker.Idle? && w.calls == map[] && !w.replayFlag && SentTo(w, t) == []
  {
    hide EnabledRun, AfterRun;
    var run := ParksAndReplays(t, waiter);
    RunSnoc(map[], run, Record(waiter.id, waiter.minimum));
    var run' := run + [Record(waiter.id, waiter.minimum)];
    RunSnoc(map[], run', ReadFails);
    var w := AfterRun(map[], run' + [ReadFails]);
    assert w.ledger == map[waiter.id := waiter.minimum];
  }

  /** `t` waits, and the worker has nothing to tell it. */
  ghost predicate WaitsUntold(w: World, t: Token) {
    t in w.parked && t in w.asked && t !in w.cancelled && !(w.worker.Recorded? && w.worker.id == w.asked[t].id)
    && !(w.worker.Read? && w.worker.id == w.asked[t].id)
  }

  predicate ByWorker(a: Action) {
    || a.Look? || a.BeginPass? || a.LookAgain? || a.Record? || a.ReadBack?
    || a.ReadFails? || a.Notify? || a.EndPass? || a.FailPass?
  }

  lemma {:induction false} StillWaitsBesideCalls(w: World, a: Action, t: Token)
    requires Booked(w, t) && Enabled(w, a) && WaitsUntold(w, t) && a != Cancel(t)
    requires !ByWorker(a)
    ensures WaitsUntold(Act(w, a), t) && SentTo(Act(w, a), t) == SentTo(w, t) && Act(w, a).asked[t] == w.asked[t]
  {
    hide Owed, Amount, OfOthers, Told, Leaving;
  }

  lemma {:induction false} StillWaitsBesideWorker(w: World, a: Action, t: Token)
    requires Booked(w, t) && Enabled(w, a) && WaitsUntold(w, t) && !(a.Record? && a.id == w.asked[t].id)
    requires ByWorker(a)
    ensures WaitsUntold(Act(w, a), t) && SentTo(Act(w, a), t) == SentTo(w, t) && Act(w, a).asked[t] == w.asked[t]
  {
    hide Owed, Amount, OfOthers;
  }

  lemma {:induction false} StillWaits(w: World, a: Action, t: Token)
    requires Booked(w, t) && Enabled(w, a) && WaitsUntold(w, t)
    requires a != Cancel(t) && !(a.Record? && a.id == w.asked[t].id)
    ensures WaitsUntold(Act(w, a), t) && SentTo(Act(w, a), t) == SentTo(w, t) && Act(w, a).asked[t] == w.asked[t]
  {
    hide Enabled, Act, Booked, SentTo;
    if ByWorker(a) {
      StillWaitsBesideWorker(w, a, t);
    } else {
      StillWaitsBesideCalls(w, a, t);
    }
  }

  /** Nothing but another completion of the same allocation, or giving up, ends that wait. */
  lemma {:induction false} NothingElseWakes(durable: map<AllocationId, nat>, run: seq<Action>, k: nat, t: Token)
    requires EnabledRun(durable, run) && k <= |run| && WaitsUntold(Before(durable, run, k), t)
    requires var id := Before(durable, run, k).asked[t].id;
             forall i :: k <= i < |run| ==> run[i] != Cancel(t) && !(run[i].Record? && run[i].id == id)
    ensures var w, w' := Before(durable, run, k), AfterRun(durable, run);
            WaitsUntold(w', t) && SentTo(w', t) == SentTo(w, t) && w'.asked[t] == w.asked[t]
    decreases |run|
  {
    var n := |run| - 1;
    if k == |run| {
      assert run[..k] == run;
    } else {
      LastStep(durable, run);
      BeforeOfAPrefix(durable, run, n, k);
      NothingElseWakes(durable, run[..n], k, t);
      InvariantRun(durable, run[..n]);
      hide EnabledRun, AfterRun, WaitsUntold, SentTo, Enabled, Act;
      InvariantAt(AfterRun(durable, run[..n]), t);
      hide Invariant, Booked, Woken, Sound;
      StillWaits(AfterRun(durable, run[..n]), run[n], t);
    }
  }

  // ---------------------------------------------------------------------------------------------
  // No interleaving deadlocks
  // ---------------------------------------------------------------------------------------------

  /** What a call that holds the lock does next. */
  function NextOf(t: Token, call: Call): Action {
    match call
    case Locked => CheckAmount(t)
    case Checked(_) => Settle(t)
    case Parked => RaiseFlag(t)
    case _ => Unlock(t)
  }

  function StepsLeft(w: World, t: Token): nat {
    if t !in w.calls then 0
    else match w.calls[t] case Locked => 4 case Checked(_) => 3 case Parked => 2 case _ => 1
  }

  lemma {:induction false} HolderMoves(w: World, t: Token)
    requires LockFor(w, t) && w.holder == Some(t)
    ensures t in w.calls && Enabled(w, NextOf(t, w.calls[t]))
    ensures var a := NextOf(t, w.calls[t]);
            var w' := Act(w, a);
            && StepsLeft(w', t) < StepsLeft(w, t) && w'.worker == w.worker && w'.due == w.due
            && w'.replaying == w.replaying && (forall u :: u != t ==> PcOf(w', u) == PcOf(w, u))
            && if a.Unlock? then w'.holder.None? && t !in w'.calls else w'.holder == Some(t)
  {}

  /** A call can be refused at either of its two reads, and at no other place; it then leaves the lock free and no
      trace among the waiters. */
  lemma {:induction false} RefusalLeavesNoTrace(w: World, t: Token)
    requires LockFor(w, t) && SentFor(w, t)
    ensures Enabled(w, Refuse(t)) <==>
              t in w.calls && (w.calls[t] == Locked || exists amount: nat :: w.calls[t] == Checked(amount))
    ensures Enabled(w, Refuse(t)) ==>
              var w' := Act(w, Refuse(t));
              && w'.holder.None? && t !in w'.calls && t !in w'.parked && SentTo(w', t) == []
              && w'.parked == w.parked && w'.sent == w.sent && w'.ledger == w.ledger && w'.worker == w.worker
              && forall u :: u != t ==> PcOf(w', u) == PcOf(w, u)
  {
    assert t in w.calls && w.calls[t].Checked? ==> w.calls[t] == Checked(w.calls[t].amount);
  }

  /** From every reachable world, the call that holds the lock can go on by itself until it has left and the lock is
      free, while the worker and all other calls stand where they stood. */
  lemma {:induction false} HolderCanLeave(durable: map<AllocationId, nat>, run: seq<Action>, t: Token)
    returns (more: seq<Action>)
    requires EnabledRun(durable, run) && AfterRun(durable, run).holder == Some(t)
    ensures EnabledRun(durable, run + more) && forall i :: 0 <= i < |more| ==> !ByWorker(more[i])
    ensures var w, w' := AfterRun(durable, run), AfterRun(durable, run + more);
            && w'.holder.None? && t !in w'.calls && (forall u :: u != t ==> PcOf(w', u) == PcOf(w, u))
            && w'.worker == w.worker && w'.due == w.due && w'.replaying == w.replaying
    decreases StepsLeft(AfterRun(durable, run), t)
  {
    hide EnabledRun, AfterRun, Act, Enabled, Invariant, Booked, Woken;
    InvariantRun(durable, run);
    var w := AfterRun(durable, run);
    InvariantAt(w, t);
    HolderIsBooked(w, t);
    HolderMoves(w, t);
    var a := NextOf(t, w.calls[t]);
    RunSnoc(durable, run, a);
    more := [a];
    if !a.Unlock? {
      var rest := HolderCanLeave(durable, run + [a], t);
      more := [a] + rest;
      assert run + more == (run + [a]) + rest;
    }
  }

  lemma {:induction false} HolderIsBooked(w: World, t: Token)
    requires Booked(w, t)
    ensures LockFor(w, t)
  {}

  lemma {:induction false} FreeLockIsTaken(w: World, t: Token)
    requires LockFor(w, t) && w.holder.None? && t in w.calls
    ensures Enabled(w, TakeLock(t)) && Act(w, TakeLock(t)).holder == Some(t)
  {}

  /** No call is stuck: from every reachable world each of them can still come to its end. */
  lemma {:induction false} CallsCanFinish(durable: map<AllocationId, nat>, run: seq<Action>, t: Token)
    returns (more: seq<Action>)
    requires EnabledRun(durable, run) && t in AfterRun(durable, run).calls
    ensures EnabledRun(durable, run + more) && t !in AfterRun(durable, run + more).calls
  {
    hide EnabledRun, AfterRun, Act, Enabled, Invariant, Booked, Woken, LockFor;
    more := FreesTheLock(durable, run);
    var v := AfterRun(durable, run + more);
    if t in v.calls {
      InvariantRun(durable, run + more);
      InvariantAt(v, t);
      HolderIsBooked(v, t);
      FreeLockIsTaken(v, t);
      RunSnoc(durable, run + more, TakeLock(t));
      var rest := HolderCanLeave(durable, run + more + [TakeLock(t)], t);
      assert run + (more + [TakeLock(t)] + rest) == run + more + [TakeLock(t)] + rest;
      more := more + [TakeLock(t)] + rest;
    }
  }

  lemma {:induction false} FreesTheLock(durable: map<AllocationId, nat>, run: seq<Action>) returns (more: seq<Action>)
    requires EnabledRun(durable, run)
    ensures EnabledRun(durable, run + more) && AfterRun(durable, run + more).holder.None?
    ensures var w, w' := AfterRun(durable, run), AfterRun(durable, run + more);
            w'.worker == w.worker && w'.due == w.due && w'.replaying == w.replaying
    ensures forall i :: 0 <= i < |more| ==> !ByWorker(more[i])
  {
    hide EnabledRun, AfterRun;
    var w := AfterRun(durable, run);
    more := [];
    assert run + [] == run;
    if w.holder.Some? {
      more := HolderCanLeave(durable, run, w.holder.value);
    }
  }

  /** The worker announces an allocation that is due: three steps of its own, with the lock free. */
  lemma {:induction false} AnnouncesOne(durable: map<AllocationId, nat>, run: seq<Action>, id: AllocationId)
    requires EnabledRun(durable, run)
    requires AfterRun(durable, run).worker.InPass? && AfterRun(durable, run).holder.None?
    ensures EnabledRun(durable, run + [Record(id, 0)] + [ReadBack] + [Notify])
    ensures var w, w' := AfterRun(durable, run), AfterRun(durable, run + [Record(id, 0)] + [ReadBack] + [Notify]);
            && w'.worker.InPass? && w'.holder.None? && w'.due == w.due - {id} && w'.replaying == w.replaying
  {
    hide EnabledRun, AfterRun;
    RunSnoc(durable, run, Record(id, 0));
    RunSnoc(durable, run + [Record(id, 0)], ReadBack);
    RunSnoc(durable, run + [Record(id, 0)] + [ReadBack], Notify);
  }

  ghost predicate Unfailing(run: seq<Action>) {
    forall i :: 0 <= i < |run| ==> !run[i].ReadFails? && !run[i].FailPass?
  }

  lemma {:induction false} EndsNow(durable: map<AllocationId, nat>, run: seq<Action>)
    requires EnabledRun(durable, run) && AfterRun(durable, run).worker.InPass?
    requires !AfterRun(durable, run).replaying || AfterRun(durable, run).due == {}
    ensures EnabledRun(durable, run + [EndPass]) && AfterRun(durable, run + [EndPass]).worker.Idle?
  {
    hide EnabledRun, AfterRun;
    RunSnoc(durable, run, EndPass);
  }

  lemma {:induction false} DueShrinks(due: set<AllocationId>, id: AllocationId)
    requires id in due
    ensures |due - {id}| < |due|
  {}

  /** No pass is stuck either: without any failure it can go on to its end, a replay after it has recorded and
      announced everything that is due. */
  lemma {:induction false} PassesCanEnd(durable: map<AllocationId, nat>, run: seq<Action>) returns (more: seq<Action>)
    requires EnabledRun(durable, run) && AfterRun(durable, run).worker.InPass?
    requires AfterRun(durable, run).holder.None?
    ensures EnabledRun(durable, run + more) && AfterRun(durable, run + more).worker.Idle?
    ensures Unfailing(more) && |more| > 0 && more[|more| - 1] == EndPass
    decreases if AfterRun(durable, run).replaying then |AfterRun(durable, run).due| else 0
  {
    hide EnabledRun, AfterRun, Act, Enabled;
    var w := AfterRun(durable, run);
    if w.replaying && w.due != {} {
      var id :| id in w.due;
      AnnouncesOne(durable, run, id);
      DueShrinks(w.due, id);
      var rest := PassesCanEnd(durable, run + [Record(id, 0)] + [ReadBack] + [Notify]);
      more := [Record(id, 0), ReadBack, Notify] + rest;
      ThreeThenRest(run, Record(id, 0), ReadBack, Notify, rest);
    } else {
      more := [EndPass];
      EndsNow(durable, run);
    }
  }

  lemma {:induction false} ThreeThenRest(run: seq<Action>, a: Action, b: Action, c: Action, rest: seq<Action>)
    requires Unfailing(rest) && Unfailing([a, b, c])
    ensures run + ([a, b, c] + rest) == run + [a] + [b] + [c] + rest
    ensures Unfailing([a, b, c] + rest)
  {}
}
