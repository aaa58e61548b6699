/**
 Exclusive slots that expire: the table of slots with its operations, the class that holds it, what
 holders may rely on over every interleaving, and why sweeping is invisible.
 */
module Leases {
  import opened Common

  type LeaseId = nat

  /** One entry of the table; it counts as held only while `until` lies ahead. */
  datatype Lease = Lease(holder: LeaseId, until: nat)

  datatype Table<K(==)> = Table(leases: map<K, Lease>, nextHolder: LeaseId)

  // ---------------------------------------------------------------------------------------------
  // Operations on the slot table
  // ---------------------------------------------------------------------------------------------

  predicate Live<K(==)>(t: Table<K>, key: K, now: nat) {
    key in t.leases && t.leases[key].until > now
  }

  /** The keys whose slot is held at `now`; an expired slot reads as free. */
  function HeldKeys<K(==)>(t: Table<K>, now: nat): set<K> {
    set k | k in t.leases && t.leases[k].until > now
  }

  function Grant<K(==)>(t: Table<K>, key: K, now: nat): Option<LeaseId> {
    if Live(t, key, now) then None else Some(t.nextHolder)
  }

  /** An id is consumed whether or not the slot is granted. */
  function Acquired<K(==)>(t: Table<K>, key: K, now: nat, timeout: nat): Table<K> {
    Table(if Live(t, key, now) then t.leases else t.leases[key := Lease(t.nextHolder, now + timeout)],
          t.nextHolder + 1)
  }

  function ReleasedBy<K(==)>(t: Table<K>, key: K, holder: LeaseId): Table<K> {
    if key in t.leases && t.leases[key].holder == holder then t.(leases := t.leases - {key}) else t
  }

  function Released<K(==)>(t: Table<K>, key: K): Table<K> {
    t.(leases := t.leases - {key})
  }

  function Swept<K(==)>(t: Table<K>, now: nat): Table<K> {
    t.(leases := map k | k in t.leases && t.leases[k].until > now :: t.leases[k])
  }

  /** `t` holds no slot that `before` did not hold under the same lease. */
  ghost predicate Shrunk<K>(before: Table<K>, t: Table<K>) {
    forall k :: k in t.leases ==> k in before.leases && before.leases[k] == t.leases[k]
  }

  lemma ShrunkHoldsLess<K>(before: Table<K>, t: Table<K>, earlier: nat, now: nat)
    requires Shrunk(before, t) && earlier <= now
    ensures HeldKeys(t, now) <= HeldKeys(before, earlier)
    ensures |HeldKeys(t, now)| <= |HeldKeys(before, earlier)|
  {
    SubsetCardinality(HeldKeys(t, now), HeldKeys(before, earlier));
  }

  lemma AcquireHoldsOneMore<K>(t: Table<K>, key: K, now: nat, timeout: nat)
    requires timeout > 0
    ensures HeldKeys(Acquired(t, key, now, timeout), now) == HeldKeys(t, now) + {key}
    ensures |HeldKeys(Acquired(t, key, now, timeout), now)|
         == |HeldKeys(t, now)| + if Live(t, key, now) then 0 else 1
  {
    assert HeldKeys(Acquired(t, key, now, timeout), now) == HeldKeys(t, now) + {key};
  }

  /** A granted slot is held until its deadline and not a moment longer; a refusal leaves the slot to the holder
      it has. Either way no other slot changes, and the id is used up. */
  lemma AcquiredHoldsUntilTheDeadline<K>(t: Table<K>, key: K, now: nat, timeout: nat)
    ensures var after := Acquired(t, key, now, timeout);
            && after.nextHolder == t.nextHolder + 1
            && (Grant(t, key, now).None? <==> key in t.leases && now < t.leases[key].until)
            && (Grant(t, key, now).Some? ==>
                  && Grant(t, key, now).value == t.nextHolder
                  && (forall at: nat :: Live(after, key, at) <==> at < now + timeout)
                  && key in after.leases && after.leases[key].holder == t.nextHolder)
            && (Grant(t, key, now).None? ==>
                  key in after.leases && after.leases[key] == t.leases[key]
                  && forall at: nat :: Live(after, key, at) <==> Live(t, key, at))
            && (forall k, at: nat :: k != key ==> (Live(after, k, at) <==> Live(t, k, at)))
  {}

  /** The slots of one kind of chain write. */
  class ActionLeases<K(==)> {
    var leases: map<K, Lease>
    var nextHolder: LeaseId

    function Snapshot(): Table<K>
      reads this
    {
      Table(leases, nextHolder)
    }

    constructor ()
      ensures Snapshot() == Table(map[], 0)
    {
      leases := map[];
      nextHolder := 0;
    }

    /** Draws a holder id in any case, and takes a free slot with it until `now + timeout`. */
    method Acquire(key: K, now: nat, timeout: nat) returns (granted: Option<LeaseId>)
      modifies this
      ensures granted == Grant(old(Snapshot()), key, now)
      ensures Snapshot() == Acquired(old(Snapshot()), key, now, timeout)
      ensures granted.None? <==> key in old(leases) && now < old(leases)[key].until
      ensures granted.None? ==> leases == old(leases)
      ensures granted.Some? ==> leases == old(leases)[key := Lease(granted.value, now + timeout)]
      ensures granted.Some? ==> forall t: nat :: IsHeld(key, t) <==> t < now + timeout
      ensures granted.Some? ==> granted.value == old(nextHolder)
      ensures nextHolder == old(nextHolder) + 1
    {
      var holder := nextHolder;
      nextHolder := nextHolder + 1;
      if key in leases && leases[key].until > now {
        return None;
      }
      leases := leases[key := Lease(holder, now + timeout)];
      return Some(holder);
    }

    /** What a task does with its own slot: nothing happens once somebody else holds it. */
    method ReleaseOwned(key: K, holder: LeaseId)
      modifies this
      ensures Snapshot() == ReleasedBy(old(Snapshot()), key, holder)
      ensures leases == if key in old(leases) && old(leases)[key].holder == holder then old(leases) - {key}
                        else old(leases)
      ensures nextHolder == old(nextHolder)
    {
      if key in leases && leases[key].holder == holder {
        leases := leases - {key};
      }
    }

    /** What a chain event does: the entry goes, whichever task it belonged to. */
    method Release(key: K)
      modifies this
      ensures Snapshot() == Released(old(Snapshot()), key)
      ensures leases == old(leases) - {key} && nextHolder == old(nextHolder)
    {
      leases := leases - {key};
    }

    function IsHeld(key: K, now: nat): (held: bool)
      reads this
      ensures held <==> Live(Snapshot(), key, now)
    {
      key in leases && leases[key].until > now
    }

    function HeldCount(now: nat): (n: nat)
      reads this
      ensures n == |HeldKeys(Snapshot(), now)|
    {
      |set k | k in leases && leases[k].until > now|
    }

    /** Drops expired entries. */
    method Sweep(now: nat)
      modifies this
      ensures Snapshot() == Swept(old(Snapshot()), now)
      ensures forall key :: key in leases <==> key in old(leases) && old(leases)[key].until > now
      ensures forall key :: key in leases ==> leases[key] == old(leases)[key]
      ensures nextHolder == old(nextHolder)
    {
      leases := map k | k in leases && leases[k].until > now :: leases[k];
    }
  }

  // ---------------------------------------------------------------------------------------------
  // Fencing over every interleaving
  // ---------------------------------------------------------------------------------------------

  /** An `acquire` call that has read the clock and drawn its id but not yet reached the table. */
  datatype Pending<K(==)> = Pending(key: K, at: nat, until: nat)

  /** A slot as its holder sees it: granted, and neither given back nor revoked by a chain event. */
  datatype Hold<K(==)> = Hold(key: K, until: nat)

  /** The table, the calls in progress, and the slots granted so far that nobody has ended. */
  datatype World<K(==)> = World(
    clock: nat, table: Table<K>, pending: map<LeaseId, Pending<K>>, granted: map<LeaseId, Hold<K>>)

  /** One atomic action of any thread. `acquire` and `sweep` act on a clock reading that may be old. */
  datatype Action<K(==)> =
    | Elapse(dt: nat)
    | BeginAcquire(key: K, timeout: nat)
    | TakeSlot(id: LeaseId)
    | ReportBack(key: K, id: LeaseId)
    | ChainEvent(key: K)
    | SweepAt(at: nat)

  predicate Enabled<K(==)>(w: World<K>, a: Action<K>) {
    match a
    case TakeSlot(id) => id in w.pending
    case SweepAt(at) => at <= w.clock
    case _ => true
  }

  function Act<K(==)>(w: World<K>, a: Action<K>): World<K>
    requires Enabled(w, a)
  {
    match a
    case Elapse(dt) => w.(clock := w.clock + dt)
    case BeginAcquire(key, timeout) =>
      w.(table := w.table.(nextHolder := w.table.nextHolder + 1),
         pending := w.pending[w.table.nextHolder := Pending(key, w.clock, w.clock + timeout)])
    case TakeSlot(id) =>
      var p := w.pending[id];
      if Live(w.table, p.key, p.at) then w.(pending := w.pending - {id})
      else w.(pending := w.pending - {id},
              table := w.table.(leases := w.table.leases[p.key := Lease(id, p.until)]),
              granted := w.granted[id := Hold(p.key, p.until)])
    case ReportBack(key, id) =>
      w.(table := ReleasedBy(w.table, key, id),
         granted := if id in w.granted && w.granted[id].key == key then w.granted - {id} else w.granted)
    case ChainEvent(key) =>
      w.(table := Released(w.table, key),
         granted := map id | id in w.granted && w.granted[id].key != key :: w.granted[id])
    case SweepAt(at) => w.(table := Swept(w.table, at))
  }

  /** The table agrees with what the holders believe. */
  ghost predicate Fenced<K(!new)>(w: World<K>) {
    && (forall id :: id in w.pending ==>
          id < w.table.nextHolder && w.pending[id].at <= w.clock && id !in w.granted)
    && (forall id :: id in w.granted ==> id < w.table.nextHolder)
    && (forall id :: id in w.granted && w.granted[id].until > w.clock ==>
          w.granted[id].key in w.table.leases
          && w.table.leases[w.granted[id].key] == Lease(id, w.granted[id].until))
    && (forall k :: k in w.table.leases ==>
          w.table.leases[k].holder in w.granted
          && w.granted[w.table.leases[k].holder] == Hold(k, w.table.leases[k].until))
  }

  function NewWorld<K(==)>(): World<K> {
    World(0, Table(map[], 0), map[], map[])
  }

  lemma FencedStep<K(!new)>(w: World<K>, a: Action<K>)
    requires Fenced(w) && Enabled(w, a)
    ensures Fenced(Act(w, a))
  {}

  ghost predicate EnabledRun<K>(w: World<K>, run: seq<Action<K>>)
    decreases |run|
  {
    run == [] || (Enabled(w, run[0]) && EnabledRun(Act(w, run[0]), run[1..]))
  }

  ghost function AfterRun<K>(w: World<K>, run: seq<Action<K>>): World<K>
    requires EnabledRun(w, run)
    decreases |run|
  {
    if run == [] then w else AfterRun(Act(w, run[0]), run[1..])
  }

  lemma {:induction false} FencedRun<K(!new)>(w: World<K>, run: seq<Action<K>>)
    requires Fenced(w) && EnabledRun(w, run)
    ensures Fenced(AfterRun(w, run))
    decreases |run|
  {
    if run != [] {
      FencedStep(w, run[0]);
      FencedRun(Act(w, run[0]), run[1..]);
    }
  }

  /** In every run, two slots on one key are never live under two holders, and a slot is live in its
      holder's eyes exactly when the table says so. */
  lemma HoldersNeverOverlap<K(!new)>(run: seq<Action<K>>, a: LeaseId, b: LeaseId)
    requires EnabledRun(NewWorld(), run)
    ensures var w := AfterRun(NewWorld<K>(), run);
            && ((a in w.granted && b in w.granted && w.granted[a].key == w.granted[b].key
                 && w.granted[a].until > w.clock && w.granted[b].until > w.clock) ==> a == b)
            && (forall key :: (Live(w.table, key, w.clock) && w.table.leases[key].holder == a)
                  <==> (a in w.granted && w.granted[a].key == key && w.granted[a].until > w.clock))
  {
    FencedRun(NewWorld<K>(), run);
  }

  lemma ClockAdvances<K>(w: World<K>, run: seq<Action<K>>)
    requires EnabledRun(w, run)
    ensures w.clock <= AfterRun(w, run).clock
    decreases |run|
  {
    if run != [] {
      ClockAdvances(Act(w, run[0]), run[1..]);
    }
  }

  /** A granted slot stays with its holder until its deadline unless the holder itself reports back
      or a chain event on its key arrives: no other acquire, sweep or stale report ends it. */
  lemma {:induction false} SlotStaysWithItsHolder<K(!new)>(w: World<K>, run: seq<Action<K>>, id: LeaseId)
    requires Fenced(w) && EnabledRun(w, run)
    requires id in w.granted && AfterRun(w, run).clock < w.granted[id].until
    requires forall i :: 0 <= i < |run| ==>
               run[i] != ReportBack(w.granted[id].key, id) && run[i] != ChainEvent(w.granted[id].key)
    ensures id in AfterRun(w, run).granted && AfterRun(w, run).granted[id] == w.granted[id]
    ensures var t := AfterRun(w, run).table;
            w.granted[id].key in t.leases && t.leases[w.granted[id].key] == Lease(id, w.granted[id].until)
    decreases |run|
  {
    if run != [] {
      var v := Act(w, run[0]);
      FencedStep(w, run[0]);
      ClockAdvances(v, run[1..]);
      assert v.granted[id] == w.granted[id];
      assert forall i :: 0 <= i < |run[1..]| ==> run[1..][i] == run[i + 1];
      SlotStaysWithItsHolder(v, run[1..], id);
    }
  }

  // ---------------------------------------------------------------------------------------------
  // Sweeping is invisible
  // ---------------------------------------------------------------------------------------------

  datatype Op<K(==)> =
    | Acquire(key: K, timeout: nat)
    | ReleaseOwned(key: K, holder: LeaseId)
    | Release(key: K)
    | IsHeld(key: K)
    | HeldCount
    | Sweep
    | Wait(dt: nat)

  datatype Answer = Slot(granted: Option<LeaseId>) | Taken(held: bool) | Count(n: nat) | Done

  function TableAfter<K(==)>(t: Table<K>, now: nat, op: Op<K>): Table<K> {
    match op
    case Acquire(key, timeout) => Acquired(t, key, now, timeout)
    case ReleaseOwned(key, holder) => ReleasedBy(t, key, holder)
    case Release(key) => Released(t, key)
    case Sweep => Swept(t, now)
    case _ => t
  }

  function ClockAfter<K(==)>(now: nat, op: Op<K>): nat {
    if op.Wait? then now + op.dt else now
  }

  function AnswerTo<K(==)>(t: Table<K>, now: nat, op: Op<K>): Answer {
    match op
    case Acquire(key, timeout) => Slot(Grant(t, key, now))
    case IsHeld(key) => Taken(Live(t, key, now))
    case HeldCount => Count(|HeldKeys(t, now)|)
    case _ => Done
  }

  /** What a caller observes, sweeps aside. */
  function Answers<K(==)>(t: Table<K>, now: nat, ops: seq<Op<K>>): seq<Answer>
    decreases |ops|
  {
    if ops == [] then []
    else
      (if ops[0].Sweep? then [] else [AnswerTo(t, now, ops[0])])
      + Answers(TableAfter(t, now, ops[0]), ClockAfter(now, ops[0]), ops[1..])
  }

  function WithoutSweeps<K(==)>(ops: seq<Op<K>>): seq<Op<K>> {
    if ops == [] then []
    else (if ops[0].Sweep? then [] else [ops[0]]) + WithoutSweeps(ops[1..])
  }

  // ---------------------------------------------------------------------------------------------
  // Calls that nothing interrupts
  // ---------------------------------------------------------------------------------------------

  function TableAfterAll<K(==)>(t: Table<K>, now: nat, ops: seq<Op<K>>): Table<K>
    decreases |ops|
  {
    if ops == [] then t else TableAfterAll(TableAfter(t, now, ops[0]), ClockAfter(now, ops[0]), ops[1..])
  }

  /** The actions of a call that runs to its end before anything else happens. */
  function ActionsOf<K(==)>(t: Table<K>, now: nat, op: Op<K>): seq<Action<K>> {
    match op
    case Acquire(key, timeout) => [BeginAcquire(key, timeout), TakeSlot(t.nextHolder)]
    case ReleaseOwned(key, holder) => [ReportBack(key, holder)]
    case Release(key) => [ChainEvent(key)]
    case Sweep => [SweepAt(now)]
    case Wait(dt) => [Elapse(dt)]
    case _ => []
  }

  lemma CallIsARun<K(!new)>(w: World<K>, op: Op<K>)
    requires Fenced(w)
    ensures var run := ActionsOf(w.table, w.clock, op);
            && EnabledRun(w, run)
            && AfterRun(w, run).table == TableAfter(w.table, w.clock, op)
            && AfterRun(w, run).clock == ClockAfter(w.clock, op)
            && Fenced(AfterRun(w, run))
  {
    var run := ActionsOf(w.table, w.clock, op);
    hide Fenced;
    if op.Acquire? {
      var begun := Act(w, run[0]);
      assert run[1..] == [run[1]] && run[1..][1..] == [];
      assert AfterRun(begun, run[1..]) == Act(begun, run[1]);
    } else if run != [] {
      assert run[1..] == [];
    }
    FencedRun(w, run);
  }

  lemma {:induction false} RunsJoin<K(!new)>(w: World<K>, a: seq<Action<K>>, b: seq<Action<K>>)
    requires EnabledRun(w, a) && EnabledRun(AfterRun(w, a), b)
    ensures EnabledRun(w, a + b) && AfterRun(w, a + b) == AfterRun(AfterRun(w, a), b)
    decreases |a|
  {
    if a == [] {
      assert a + b == b;
    } else {
      RunsJoin(Act(w, a[0]), a[1..], b);
      assert (a + b)[1..] == a[1..] + b;
    }
  }

  /** Whatever calls are made on the class, one after the other, the table they leave is the table of a run of the
      interleaved world: what holds of every run holds of the class. */
  lemma {:induction false} CallsAreARun<K(!new)>(w: World<K>, ops: seq<Op<K>>) returns (run: seq<Action<K>>)
    requires Fenced(w)
    ensures EnabledRun(w, run) && AfterRun(w, run).table == TableAfterAll(w.table, w.clock, ops)
    decreases |ops|
  {
    run := [];
    if ops != [] {
      CallIsARun(w, ops[0]);
      var first := ActionsOf(w.table, w.clock, ops[0]);
      hide ActionsOf, Fenced;
      var rest := CallsAreARun(AfterRun(w, first), ops[1..]);
      RunsJoin(w, first, rest);
      run := first + rest;
    }
  }

  function ClockAfterAll<K(==)>(now: nat, ops: seq<Op<K>>): nat
    decreases |ops|
  {
    if ops == [] then now else ClockAfterAll(ClockAfter(now, ops[0]), ops[1..])
  }

  /** What a caller observes is the answer to each call but the sweeps, in their order, as the table and the clock
      stand when it is made. */
  lemma {:induction false} AnswersInTurn<K(!new)>(t: Table<K>, now: nat, ops: seq<Op<K>>, i: nat)
    requires i < |ops| && !ops[i].Sweep?
    ensures |Answers(t, now, ops)| == |WithoutSweeps(ops)| && |WithoutSweeps(ops[..i])| < |WithoutSweeps(ops)|
    ensures Answers(t, now, ops)[|WithoutSweeps(ops[..i])|]
         == AnswerTo(TableAfterAll(t, now, ops[..i]), ClockAfterAll(now, ops[..i]), ops[i])
    decreases |ops|
  {
    if i == 0 {
      AsManyAnswers(t, now, ops);
      assert ops[..0] == [];
    } else {
      var u, v := TableAfter(t, now, ops[0]), ClockAfter(now, ops[0]);
      AnswersInTurn(u, v, ops[1..], i - 1);
      assert ops[..i][1..] == ops[1..][..i - 1] && ops[..i][0] == ops[0];
    }
  }

  lemma {:induction false} AsManyAnswers<K(!new)>(t: Table<K>, now: nat, ops: seq<Op<K>>)
    ensures |Answers(t, now, ops)| == |WithoutSweeps(ops)|
    decreases |ops|
  {
    if ops != [] {
      AsManyAnswers(TableAfter(t, now, ops[0]), ClockAfter(now, ops[0]), ops[1..]);
    }
  }

  /** `k` is held in both tables under the same lease, or in neither. */
  ghost predicate SameLiveAt<K>(t: Table<K>, u: Table<K>, now: nat, k: K) {
    if Live(t, k, now) then Live(u, k, now) && t.leases[k] == u.leases[k] else !Live(u, k, now)
  }

  /** Two tables that differ only in expired entries. */
  ghost predicate SameLive<K(!new)>(t: Table<K>, u: Table<K>, now: nat) {
    t.nextHolder == u.nextHolder && forall k :: SameLiveAt(t, u, now, k)
  }

  lemma {:induction false} SameLiveLater<K(!new)>(t: Table<K>, u: Table<K>, now: nat, dt: nat)
    requires SameLive(t, u, now)
    ensures SameLive(t, u, now + dt)
  {
    var later := now + dt;
    forall k ensures SameLiveAt(t, u, later, k) {
      assert SameLiveAt(t, u, now, k);
    }
  }

  lemma {:induction false} SameLiveCount<K(!new)>(t: Table<K>, u: Table<K>, now: nat)
    requires SameLive(t, u, now)
    ensures HeldKeys(t, now) == HeldKeys(u, now)
  {
    forall k ensures k in HeldKeys(t, now) <==> k in HeldKeys(u, now) {
      assert SameLiveAt(t, u, now, k);
    }
  }

  lemma {:induction false} SameLiveAcquired<K(!new)>(t: Table<K>, u: Table<K>, now: nat, key: K, timeout: nat)
    requires SameLive(t, u, now)
    ensures SameLive(Acquired(t, key, now, timeout), Acquired(u, key, now, timeout), now)
  {
    var t', u' := Acquired(t, key, now, timeout), Acquired(u, key, now, timeout);
    assert SameLiveAt(t, u, now, key);
    forall k ensures SameLiveAt(t', u', now, k) {
      assert SameLiveAt(t, u, now, k);
    }
  }

  lemma {:induction false} SameLiveReleasedBy<K(!new)>(t: Table<K>, u: Table<K>, now: nat, key: K, holder: LeaseId)
    requires SameLive(t, u, now)
    ensures SameLive(ReleasedBy(t, key, holder), ReleasedBy(u, key, holder), now)
  {
    var t', u' := ReleasedBy(t, key, holder), ReleasedBy(u, key, holder);
    assert SameLiveAt(t, u, now, key);
    forall k ensures SameLiveAt(t', u', now, k) {
      assert SameLiveAt(t, u, now, k);
    }
  }

  lemma {:induction false} SameLiveReleased<K(!new)>(t: Table<K>, u: Table<K>, now: nat, key: K)
    requires SameLive(t, u, now)
    ensures SameLive(Released(t, key), Released(u, key), now)
  {
    var t', u' := Released(t, key), Released(u, key);
    forall k ensures SameLiveAt(t', u', now, k) {
      assert SameLiveAt(t, u, now, k);
    }
  }

  lemma {:induction false} SameLiveSwept<K(!new)>(t: Table<K>, u: Table<K>, now: nat)
    requires SameLive(t, u, now)
    ensures SameLive(Swept(t, now), u, now) && SameLive(Swept(t, now), Swept(u, now), now)
  {
    forall k
      ensures SameLiveAt(Swept(t, now), u, now, k)
      ensures SameLiveAt(Swept(t, now), Swept(u, now), now, k)
    {
      assert SameLiveAt(t, u, now, k);
    }
  }

  lemma {:induction false} SameLiveStep<K(!new)>(t: Table<K>, u: Table<K>, now: nat, op: Op<K>)
    requires SameLive(t, u, now)
    ensures AnswerTo(t, now, op) == AnswerTo(u, now, op)
    ensures SameLive(TableAfter(t, now, op), TableAfter(u, now, op), ClockAfter(now, op))
    ensures SameLive(Swept(t, now), u, now)
  {
    SameLiveCount(t, u, now);
    SameLiveSwept(t, u, now);
    assert op.Acquire? || op.IsHeld? ==> SameLiveAt(t, u, now, op.key);
    hide SameLive, HeldKeys, Acquired, ReleasedBy, Released, Swept;
    match op
    case Acquire(key, timeout) => SameLiveAcquired(t, u, now, key, timeout);
    case ReleaseOwned(key, holder) => SameLiveReleasedBy(t, u, now, key, holder);
    case Release(key) => SameLiveReleased(t, u, now, key);
    case Wait(dt) => SameLiveLater(t, u, now, dt);
    case _ =>
  }

  lemma {:induction false} AnswersIgnoreSweeps<K(!new)>(t: Table<K>, u: Table<K>, now: nat, ops: seq<Op<K>>)
    requires SameLive(t, u, now)
    ensures Answers(t, now, ops) == Answers(u, now, WithoutSweeps(ops))
    decreases |ops|
  {
    if ops != [] {
      var op := ops[0];
      SameLiveStep(t, u, now, op);
      if op.Sweep? {
        AnswersIgnoreSweeps(Swept(t, now), u, now, ops[1..]);
        assert WithoutSweeps(ops) == WithoutSweeps(ops[1..]);
      } else {
        AnswersIgnoreSweeps(TableAfter(t, now, op), TableAfter(u, now, op), ClockAfter(now, op), ops[1..]);
        assert WithoutSweeps(ops)[1..] == WithoutSweeps(ops[1..]);
      }
    }
  }

  /** Sweeps may be inserted or removed anywhere without changing a single answer. */
  lemma {:induction false} SweepIsInvisible<K(!new)>(t: Table<K>, now: nat, ops: seq<Op<K>>, others: seq<Op<K>>)
    requires WithoutSweeps(ops) == WithoutSweeps(others)
    ensures Answers(t, now, ops) == Answers(t, now, others)
  {
    AnswersIgnoreSweeps(t, t, now, ops);
    AnswersIgnoreSweeps(t, t, now, others);
  }
}
