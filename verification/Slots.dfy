/**
 The four kinds of slots together: the budget they share, what dispatching one more chain write does
 to them, and what time and reporting tasks do.
 */
module Slots {
  import opened Common
  import opened Leases
  import opened Passes

  datatype SlotSet = SlotSet(open: Table<Key>, fund: Table<Key>, close: Table<Key>, finalize: Table<Key>)

  datatype Limits = Limits(maxActions: nat, leaseTimeout: nat, maxClosing: nat, maxFinalizing: nat)

  function TableOf(s: SlotSet, kind: Kind): Table<Key> {
    match kind
    case OpenTx => s.open
    case FundTx => s.fund
    case CloseTx => s.close
    case FinalizeTx => s.finalize
  }

  function WithTable(s: SlotSet, kind: Kind, t: Table<Key>): SlotSet {
    match kind
    case OpenTx => s.(open := t)
    case FundTx => s.(fund := t)
    case CloseTx => s.(close := t)
    case FinalizeTx => s.(finalize := t)
  }

  function Held(t: Table<Key>, now: nat): nat { |HeldKeys(t, now)| }

  /** In-flight chain writes of all four kinds. */
  function InFlight(s: SlotSet, now: nat): nat {
    Held(s.open, now) + Held(s.fund, now) + Held(s.close, now) + Held(s.finalize, now)
  }

  ghost function Tagged(kind: Kind, keys: set<Key>): set<(Kind, Key)> { set key | key in keys :: (kind, key) }

  lemma {:induction false} TaggedCount(kind: Kind, keys: set<Key>)
    ensures |Tagged(kind, keys)| == |keys|
    decreases |keys|
  {
    if keys != {} {
      var key :| key in keys;
      TaggedCount(kind, keys - {key});
      assert Tagged(kind, keys) == Tagged(kind, keys - {key}) + {(kind, key)};
    } else {
      assert Tagged(kind, keys) == {};
    }
  }

  lemma InTagged(kind: Kind, keys: set<Key>, slot: (Kind, Key))
    ensures slot in Tagged(kind, keys) <==> slot.0 == kind && slot.1 in keys
  {
    assert slot == (slot.0, slot.1);
  }

  /** All slots held, with their kinds. */
  ghost function AllHeld(s: SlotSet, now: nat): set<(Kind, Key)> {
    Tagged(OpenTx, HeldKeys(s.open, now)) + Tagged(FundTx, HeldKeys(s.fund, now))
    + Tagged(CloseTx, HeldKeys(s.close, now)) + Tagged(FinalizeTx, HeldKeys(s.finalize, now))
  }

  lemma InAllHeld(s: SlotSet, now: nat, slot: (Kind, Key))
    ensures slot in AllHeld(s, now) <==> Live(TableOf(s, slot.0), slot.1, now)
  {
    InTagged(OpenTx, HeldKeys(s.open, now), slot);
    InTagged(FundTx, HeldKeys(s.fund, now), slot);
    InTagged(CloseTx, HeldKeys(s.close, now), slot);
    InTagged(FinalizeTx, HeldKeys(s.finalize, now), slot);
    hide Tagged;
  }

  lemma DisjointCount<T>(a: set<T>, b: set<T>)
    requires a !! b
    ensures |a + b| == |a| + |b|
  {}

  lemma AllHeldCount(s: SlotSet, now: nat)
    ensures |AllHeld(s, now)| == InFlight(s, now)
  {
    var a, b := Tagged(OpenTx, HeldKeys(s.open, now)), Tagged(FundTx, HeldKeys(s.fund, now));
    var c, d := Tagged(CloseTx, HeldKeys(s.close, now)), Tagged(FinalizeTx, HeldKeys(s.finalize, now));
    TaggedCount(OpenTx, HeldKeys(s.open, now));
    TaggedCount(FundTx, HeldKeys(s.fund, now));
    TaggedCount(CloseTx, HeldKeys(s.close, now));
    TaggedCount(FinalizeTx, HeldKeys(s.finalize, now));
    DisjointCount(a, b);
    DisjointCount(a + b, c);
    DisjointCount(a + b + c, d);
  }

  /** The shared budget is charged with every slot that is held, whatever its kind. */
  lemma EverySlotIsCharged(s: SlotSet, now: nat, held: set<(Kind, Key)>)
    requires forall kind: Kind, key: Key :: (kind, key) in held <==> Live(TableOf(s, kind), key, now)
    ensures InFlight(s, now) == |held|
  {
    AllHeldCount(s, now);
    hide AllHeld, InFlight, Live, TableOf;
    forall slot: (Kind, Key) ensures slot in held <==> slot in AllHeld(s, now) {
      InAllHeld(s, now, slot);
      assert slot == (slot.0, slot.1);
    }
    assert held == AllHeld(s, now);
  }

  /** Takes the slot, charges it against the shared budget, and gives it back if that is exhausted. */
  function Spawned(s: SlotSet, kind: Kind, key: Key, now: nat, lim: Limits): (SlotSet, bool) {
    var t := TableOf(s, kind);
    var taken := WithTable(s, kind, Acquired(t, key, now, lim.leaseTimeout));
    if Live(t, key, now) then (taken, false)
    else if InFlight(taken, now) > lim.maxActions then
      (WithTable(s, kind, ReleasedBy(TableOf(taken, kind), key, t.nextHolder)), false)
    else (taken, true)
  }

  // ---------------------------------------------------------------------------------------------
  // What always holds of the slots
  // ---------------------------------------------------------------------------------------------

  /** The global budget and the two per-kind ceilings. */
  ghost predicate CapsHold(s: SlotSet, now: nat, lim: Limits) {
    && InFlight(s, now) <= lim.maxActions
    && Held(s.close, now) <= lim.maxClosing
    && Held(s.finalize, now) <= lim.maxFinalizing
  }

  /** No channel is being funded and closed at once. */
  ghost predicate Exclusive(s: SlotSet, now: nat) {
    forall id: ChannelId :: !(Live(s.fund, Chan(id), now) && Live(s.close, Chan(id), now))
  }

  /** Time has passed and slots may have been given back; none has been taken. */
  ghost predicate Calmer(s: SlotSet, t: nat, after: SlotSet, u: nat) {
    t <= u && Shrunk(s.open, after.open) && Shrunk(s.fund, after.fund) && Shrunk(s.close, after.close)
    && Shrunk(s.finalize, after.finalize)
  }

  lemma CalmerTransitive(s: SlotSet, t: nat, s': SlotSet, t': nat, s'': SlotSet, t'': nat)
    requires Calmer(s, t, s', t') && Calmer(s', t', s'', t'')
    ensures Calmer(s, t, s'', t'')
  {}

  /** Releases and the passage of time keep every promise about the slots. */
  lemma CalmerKeeps(s: SlotSet, t: nat, after: SlotSet, u: nat, lim: Limits)
    requires Calmer(s, t, after, u)
    ensures CapsHold(s, t, lim) ==> CapsHold(after, u, lim)
    ensures Exclusive(s, t) ==> Exclusive(after, u)
    ensures Held(after.close, u) <= Held(s.close, t) && Held(after.finalize, u) <= Held(s.finalize, t)
    ensures forall key :: Live(after.close, key, u) ==> Live(s.close, key, t)
    ensures forall key :: Live(after.fund, key, u) ==> Live(s.fund, key, t)
  {
    hide HeldKeys;
    ShrunkHoldsLess(s.open, after.open, t, u);
    ShrunkHoldsLess(s.fund, after.fund, t, u);
    ShrunkHoldsLess(s.close, after.close, t, u);
    ShrunkHoldsLess(s.finalize, after.finalize, t, u);
  }

  lemma ReleaseAfterAcquire(t: Table<Key>, key: Key, now: nat, timeout: nat)
    requires !Live(t, key, now)
    ensures ReleasedBy(Acquired(t, key, now, timeout), key, t.nextHolder).leases == t.leases - {key}
  {}

  /** The slot is free and the shared budget has room. */
  predicate Grantable(s: SlotSet, kind: Kind, key: Key, now: nat, lim: Limits) {
    !Live(TableOf(s, kind), key, now) && InFlight(s, now) < lim.maxActions
  }

  /** Dispatching grants a slot exactly when the slot is free and the shared budget has room; then it
      holds one more slot of that kind, and otherwise no more than before. */
  lemma SpawnGrants(s: SlotSet, kind: Kind, key: Key, now: nat, lim: Limits)
    requires lim.leaseTimeout > 0
    ensures var (after, ok) := Spawned(s, kind, key, now, lim);
            && (ok <==> Grantable(s, kind, key, now, lim))
            && (ok ==> InFlight(after, now) == InFlight(s, now) + 1
                       && Held(TableOf(after, kind), now) == Held(TableOf(s, kind), now) + 1
                       && TableOf(after, kind) == Acquired(TableOf(s, kind), key, now, lim.leaseTimeout))
            && (!ok ==> Shrunk(TableOf(s, kind), TableOf(after, kind)))
            && (forall other: Kind :: other != kind ==> TableOf(after, other) == TableOf(s, other))
  {
    hide HeldKeys;
    var t := TableOf(s, kind);
    AcquireHoldsOneMore(t, key, now, lim.leaseTimeout);
    if !Live(t, key, now) {
      ReleaseAfterAcquire(t, key, now, lim.leaseTimeout);
    }
  }

  lemma RefusedIsCalm(s: SlotSet, kind: Kind, key: Key, now: nat, lim: Limits)
    requires lim.leaseTimeout > 0 && !Spawned(s, kind, key, now, lim).1
    ensures Calmer(s, now, Spawned(s, kind, key, now, lim).0, now)
  {
    SpawnGrants(s, kind, key, now, lim);
    hide Spawned, HeldKeys;
    var after := Spawned(s, kind, key, now, lim).0;
    assert forall other: Kind :: Shrunk(TableOf(s, other), TableOf(after, other));
    assert TableOf(after, OpenTx) == after.open && TableOf(after, FundTx) == after.fund;
    assert TableOf(after, CloseTx) == after.close && TableOf(after, FinalizeTx) == after.finalize;
  }

  /** A dispatch keeps the caps if the ceiling of its own kind had room. */
  lemma SpawnKeepsCaps(s: SlotSet, kind: Kind, key: Key, now: nat, lim: Limits)
    requires lim.leaseTimeout > 0 && CapsHold(s, now, lim)
    requires kind == CloseTx ==> Held(s.close, now) < lim.maxClosing
    requires kind == FinalizeTx ==> Held(s.finalize, now) < lim.maxFinalizing
    ensures CapsHold(Spawned(s, kind, key, now, lim).0, now, lim)
  {
    SpawnGrants(s, kind, key, now, lim);
    if Spawned(s, kind, key, now, lim).1 {
      hide Spawned, HeldKeys, InFlight;
      var after := Spawned(s, kind, key, now, lim).0;
      assert TableOf(s, CloseTx) == s.close && TableOf(after, CloseTx) == after.close;
      assert TableOf(s, FinalizeTx) == s.finalize && TableOf(after, FinalizeTx) == after.finalize;
    } else {
      RefusedIsCalm(s, kind, key, now, lim);
      CalmerKeeps(s, now, Spawned(s, kind, key, now, lim).0, now, lim);
    }
  }

  /** The other of the two kinds that must not meet on one channel. */
  function Rival(kind: Kind): Kind {
    if kind == FundTx then CloseTx else FundTx
  }

  /** A funding or closing dispatch on `id` breaks exclusion if and only if the other slot of `id` is held,
      its own is free and the budget has room. */
  lemma SpawnExclusiveIff(s: SlotSet, kind: Kind, id: ChannelId, now: nat, lim: Limits)
    requires lim.leaseTimeout > 0 && Exclusive(s, now) && (kind == FundTx || kind == CloseTx)
    ensures Exclusive(Spawned(s, kind, Chan(id), now, lim).0, now) <==>
              !(Grantable(s, kind, Chan(id), now, lim) && Live(TableOf(s, Rival(kind)), Chan(id), now))
  {
    SpawnGrants(s, kind, Chan(id), now, lim);
    hide Spawned, HeldKeys, InFlight, Grantable;
    var after := Spawned(s, kind, Chan(id), now, lim).0;
    assert TableOf(after, FundTx) == after.fund && TableOf(after, CloseTx) == after.close;
    if Spawned(s, kind, Chan(id), now, lim).1 {
      forall other: ChannelId | other != id
        ensures !(Live(after.fund, Chan(other), now) && Live(after.close, Chan(other), now))
      {
        assert !(Live(s.fund, Chan(other), now) && Live(s.close, Chan(other), now));
      }
    } else {
      RefusedIsCalm(s, kind, Chan(id), now, lim);
      CalmerKeeps(s, now, after, now, lim);
    }
  }

  /** Dispatches of the other two kinds cannot break exclusion. */
  lemma SpawnElsewhereKeepsExclusive(s: SlotSet, kind: Kind, key: Key, now: nat, lim: Limits)
    requires lim.leaseTimeout > 0 && Exclusive(s, now) && (kind == OpenTx || kind == FinalizeTx)
    ensures Exclusive(Spawned(s, kind, key, now, lim).0, now)
  {
    SpawnGrants(s, kind, key, now, lim);
    hide Spawned;
    var after := Spawned(s, kind, key, now, lim).0;
    assert TableOf(after, FundTx) == after.fund && TableOf(after, CloseTx) == after.close;
    assert TableOf(after, FundTx) == TableOf(s, FundTx) && TableOf(after, CloseTx) == TableOf(s, CloseTx);
  }

  /** From any slots with room for two more, closing a channel that is neither being closed nor funded and
      then funding it before the closure has reported back leaves it holding both. */
  lemma FundingAfterClosingBreaksExclusion(s: SlotSet, id: ChannelId, now: nat, lim: Limits)
    requires lim.leaseTimeout > 0 && Exclusive(s, now) && InFlight(s, now) + 1 < lim.maxActions
    requires !Live(s.close, Chan(id), now) && !Live(s.fund, Chan(id), now)
    ensures var (closing, closed) := Spawned(s, CloseTx, Chan(id), now, lim);
            var (both, funded) := Spawned(closing, FundTx, Chan(id), now, lim);
            closed && funded && Exclusive(closing, now) && !Exclusive(both, now)
  {
    SpawnGrants(s, CloseTx, Chan(id), now, lim);
    SpawnExclusiveIff(s, CloseTx, id, now, lim);
    hide Spawned, HeldKeys, InFlight, Exclusive;
    var closing := Spawned(s, CloseTx, Chan(id), now, lim).0;
    assert TableOf(closing, FundTx) == s.fund && TableOf(closing, CloseTx) == closing.close;
    SpawnGrants(closing, FundTx, Chan(id), now, lim);
    SpawnExclusiveIff(closing, FundTx, id, now, lim);
  }

  // ---------------------------------------------------------------------------------------------
  // What a stretch of dispatches, interleaved with releases and time, does to the slots
  // ---------------------------------------------------------------------------------------------

  function AcceptedOf(attempts: seq<Attempt>, kind: Kind): nat {
    if attempts == [] then 0
    else
      var last := attempts[|attempts| - 1];
      AcceptedOf(attempts[..|attempts| - 1], kind) + if last.accepted && last.kind == kind then 1 else 0
  }

  lemma {:induction false} AcceptedOfAppend(a: seq<Attempt>, b: seq<Attempt>, kind: Kind)
    ensures AcceptedOf(a + b, kind) == AcceptedOf(a, kind) + AcceptedOf(b, kind)
    ensures AcceptedCount(a + b) == AcceptedCount(a) + AcceptedCount(b)
  {
    if b == [] {
      assert a + b == a;
    } else {
      var front := b[..|b| - 1];
      AcceptedOfAppend(a, front, kind);
      assert a + b == (a + front) + [b[|b| - 1]];
      assert (a + b)[..|a + b| - 1] == a + front;
    }
  }

  /** One of the attempts was granted the slot of that kind for that key. */
  ghost predicate Took(attempts: seq<Attempt>, kind: Kind, key: Key) {
    exists i :: 0 <= i < |attempts| && attempts[i].accepted && attempts[i].kind == kind && attempts[i].key == key
  }

  lemma TookAppend(a: seq<Attempt>, b: seq<Attempt>, kind: Kind, key: Key)
    ensures Took(a + b, kind, key) <==> Took(a, kind, key) || Took(b, kind, key)
  {
    var c := a + b;
    if Took(a, kind, key) {
      var i :| 0 <= i < |a| && a[i].accepted && a[i].kind == kind && a[i].key == key;
      assert c[i] == a[i];
    }
    if Took(b, kind, key) {
      var i :| 0 <= i < |b| && b[i].accepted && b[i].kind == kind && b[i].key == key;
      assert c[|a| + i] == b[i];
    }
  }

  /** A refusal has a cause: the slot was held from the start or taken meanwhile, or the slots held
      from the start and those granted meanwhile exhaust the shared budget. */
  ghost predicate Justified(a: Attempt, before: seq<Attempt>, s: SlotSet, t: nat, lim: Limits) {
    a.accepted || Live(TableOf(s, a.kind), a.key, t) || Took(before, a.kind, a.key)
    || InFlight(s, t) + AcceptedCount(before) >= lim.maxActions
  }

  ghost predicate AllJustified(attempts: seq<Attempt>, s: SlotSet, t: nat, lim: Limits) {
    forall i :: 0 <= i < |attempts| ==> Justified(attempts[i], attempts[..i], s, t, lim)
  }

  ghost predicate KindRan(s: SlotSet, t: nat, attempts: seq<Attempt>, s': SlotSet, t': nat, kind: Kind) {
    && (forall key :: Live(TableOf(s', kind), key, t') ==> Live(TableOf(s, kind), key, t) || Took(attempts, kind, key))
    && Held(TableOf(s', kind), t') <= Held(TableOf(s, kind), t) + AcceptedOf(attempts, kind)
  }

  /** The slots one dispatch leaves. */
  function AfterOne(m: SlotSet, u: nat, a: Attempt, lim: Limits): SlotSet {
    Spawned(m, a.kind, a.key, u, lim).0
  }

  /** Between the two the attempts were dispatched one after the other, each at the slots it met and with the
      answer those gave, and in between time passed and slots were given back. */
  ghost predicate Traced(s: SlotSet, t: nat, attempts: seq<Attempt>, s': SlotSet, t': nat, lim: Limits)
    decreases |attempts|
  {
    if attempts == [] then Calmer(s, t, s', t')
    else exists m: SlotSet, u: nat :: DispatchedAt(m, u, s, t, attempts[0], lim)
           && Traced(AfterOne(m, u, attempts[0], lim), u, attempts[1..], s', t', lim)
  }

  /** The slots have come down to `m` by `u`, where the attempt is dispatched and answered as they say. */
  ghost predicate DispatchedAt(m: SlotSet, u: nat, s: SlotSet, t: nat, a: Attempt, lim: Limits) {
    Calmer(s, t, m, u) && a.accepted == Spawned(m, a.kind, a.key, u, lim).1
  }

  lemma TracedFirst(s: SlotSet, t: nat, attempts: seq<Attempt>, s': SlotSet, t': nat, lim: Limits)
    returns (m: SlotSet, u: nat)
    requires attempts != [] && Traced(s, t, attempts, s', t', lim)
    ensures DispatchedAt(m, u, s, t, attempts[0], lim)
    ensures Traced(AfterOne(m, u, attempts[0], lim), u, attempts[1..], s', t', lim)
  {
    hide AfterOne, DispatchedAt;
    m, u :| DispatchedAt(m, u, s, t, attempts[0], lim)
      && Traced(AfterOne(m, u, attempts[0], lim), u, attempts[1..], s', t', lim);
  }

  lemma TracedFrom(m: SlotSet, u: nat, s: SlotSet, t: nat, attempts: seq<Attempt>, s': SlotSet, t': nat, lim: Limits)
    requires attempts != [] && DispatchedAt(m, u, s, t, attempts[0], lim)
    requires Traced(AfterOne(m, u, attempts[0], lim), u, attempts[1..], s', t', lim)
    ensures Traced(s, t, attempts, s', t', lim)
  {
    hide AfterOne, DispatchedAt;
  }

  lemma CalmThenTraced(s: SlotSet, t: nat, s1: SlotSet, t1: nat, attempts: seq<Attempt>, s2: SlotSet, t2: nat,
                       lim: Limits)
    requires Calmer(s, t, s1, t1) && Traced(s1, t1, attempts, s2, t2, lim)
    ensures Traced(s, t, attempts, s2, t2, lim)
  {
    if attempts == [] {
      CalmerTransitive(s, t, s1, t1, s2, t2);
    } else {
      hide Traced, AfterOne, Spawned;
      var m, u := TracedFirst(s1, t1, attempts, s2, t2, lim);
      CalmerTransitive(s, t, s1, t1, m, u);
      TracedFrom(m, u, s, t, attempts, s2, t2, lim);
    }
  }

  lemma {:induction false} TracedThen(s: SlotSet, t: nat, a: seq<Attempt>, s1: SlotSet, t1: nat,
                                      b: seq<Attempt>, s2: SlotSet, t2: nat, lim: Limits)
    requires Traced(s, t, a, s1, t1, lim) && Traced(s1, t1, b, s2, t2, lim)
    ensures Traced(s, t, a + b, s2, t2, lim)
    decreases |a|
  {
    hide Traced, AfterOne, DispatchedAt, Calmer;
    if a == [] {
      assert a + b == b;
      TracedNothing(s, t, s1, t1, lim);
      CalmThenTraced(s, t, s1, t1, b, s2, t2, lim);
    } else {
      var m, u := TracedFirst(s, t, a, s1, t1, lim);
      TracedThen(AfterOne(m, u, a[0], lim), u, a[1..], s1, t1, b, s2, t2, lim);
      FirstOfBoth(a, b);
      TracedFrom(m, u, s, t, a + b, s2, t2, lim);
    }
  }

  lemma TracedNothing(s: SlotSet, t: nat, s': SlotSet, t': nat, lim: Limits)
    requires Traced(s, t, [], s', t', lim)
    ensures Calmer(s, t, s', t')
  {}

  lemma FirstOfBoth(a: seq<Attempt>, b: seq<Attempt>)
    requires a != []
    ensures a + b != [] && (a + b)[0] == a[0] && (a + b)[1..] == a[1..] + b
  {}

  lemma OneTraced(s: SlotSet, a: Attempt, now: nat, lim: Limits)
    requires a.accepted == Spawned(s, a.kind, a.key, now, lim).1
    ensures Traced(s, now, [a], Spawned(s, a.kind, a.key, now, lim).0, now, lim)
  {
    hide Spawned;
    assert [a][1..] == [];
    assert DispatchedAt(s, now, s, now, [a][0], lim);
    var after := Spawned(s, a.kind, a.key, now, lim).0;
    assert Traced(after, now, [a][1..], after, now, lim);
  }

  /** Every answer is the slots': wherever the run had got to when it made an attempt, that attempt was granted
      exactly if its slot was free there and the shared budget had room. */
  lemma {:induction false} AnsweredBySlots(s: SlotSet, t: nat, attempts: seq<Attempt>, s': SlotSet, t': nat,
                                           lim: Limits, i: nat)
    returns (m: SlotSet, u: nat)
    requires lim.leaseTimeout > 0 && Traced(s, t, attempts, s', t', lim) && i < |attempts|
    ensures Traced(s, t, attempts[..i], m, u, lim)
    ensures var a := attempts[i];
            && (a.accepted <==> !Live(TableOf(m, a.kind), a.key, u) && InFlight(m, u) < lim.maxActions)
            && Traced(AfterOne(m, u, a, lim), u, attempts[i + 1..], s', t', lim)
    decreases |attempts|
  {
    hide Traced, AfterOne, DispatchedAt, Live, InFlight;
    var m0, u0 := TracedFirst(s, t, attempts, s', t', lim);
    if i == 0 {
      m, u := m0, u0;
      assert attempts[..0] == [];
      FirstAnswer(m, u, s, t, attempts[0], lim);
    } else {
      m, u := AnsweredBySlots(AfterOne(m0, u0, attempts[0], lim), u0, attempts[1..], s', t', lim, i - 1);
      FirstOfSome(attempts, i);
      TracedFrom(m0, u0, s, t, attempts[..i], m, u, lim);
    }
  }

  lemma FirstAnswer(m: SlotSet, u: nat, s: SlotSet, t: nat, a: Attempt, lim: Limits)
    requires lim.leaseTimeout > 0 && DispatchedAt(m, u, s, t, a, lim)
    ensures Traced(s, t, [], m, u, lim)
    ensures a.accepted <==> !Live(TableOf(m, a.kind), a.key, u) && InFlight(m, u) < lim.maxActions
  {
    SpawnGrants(m, a.kind, a.key, u, lim);
  }

  lemma FirstOfSome(attempts: seq<Attempt>, i: nat)
    requires 0 < i < |attempts|
    ensures attempts[..i] != [] && attempts[..i][0] == attempts[0] && attempts[..i][1..] == attempts[1..][..i - 1]
    ensures attempts[1..][i - 1] == attempts[i] && attempts[1..][i..] == attempts[i + 1..]
  {}

  /** The slots went from `s` at time `t` to `s'` at `t'` while exactly `attempts` were dispatched. */
  ghost predicate Ran(s: SlotSet, t: nat, attempts: seq<Attempt>, s': SlotSet, t': nat, lim: Limits) {
    && t <= t'
    && (forall kind: Kind :: KindRan(s, t, attempts, s', t', kind))
    && InFlight(s', t') <= InFlight(s, t) + AcceptedCount(attempts)
    && InFlight(s', t') <= Max(InFlight(s, t), lim.maxActions)
    && AllJustified(attempts, s, t, lim)
    && Traced(s, t, attempts, s', t', lim)
  }

  lemma CalmRan(s: SlotSet, t: nat, s': SlotSet, t': nat, lim: Limits)
    requires Calmer(s, t, s', t')
    ensures Ran(s, t, [], s', t', lim)
  {
    hide HeldKeys;
    ShrunkHoldsLess(s.open, s'.open, t, t');
    ShrunkHoldsLess(s.fund, s'.fund, t, t');
    ShrunkHoldsLess(s.close, s'.close, t, t');
    ShrunkHoldsLess(s.finalize, s'.finalize, t, t');
    forall kind: Kind ensures KindRan(s, t, [], s', t', kind) {
      assert Shrunk(TableOf(s, kind), TableOf(s', kind));
    }
  }

  lemma SpawnRan(s: SlotSet, kind: Kind, key: Key, amount: nat, now: nat, lim: Limits)
    requires lim.leaseTimeout > 0
    ensures var (after, ok) := Spawned(s, kind, key, now, lim);
            Ran(s, now, [Attempt(kind, key, amount, ok)], after, now, lim)
  {
    SpawnGrants(s, kind, key, now, lim);
    var after, ok := Spawned(s, kind, key, now, lim).0, Spawned(s, kind, key, now, lim).1;
    var a := Attempt(kind, key, amount, ok);
    OneTraced(s, a, now, lim);
    if ok {
      hide Spawned, Traced;
      GrantedRan(s, a, after, now, lim);
    } else {
      RefusedIsCalm(s, kind, key, now, lim);
      hide Spawned, Traced;
      CalmRan(s, now, after, now, lim);
      RefusedRan(s, a, after, now, lim);
    }
  }

  lemma GrantedRan(s: SlotSet, a: Attempt, after: SlotSet, now: nat, lim: Limits)
    requires a.accepted && InFlight(s, now) < lim.maxActions && InFlight(after, now) == InFlight(s, now) + 1
    requires Held(TableOf(after, a.kind), now) == Held(TableOf(s, a.kind), now) + 1
    requires TableOf(after, a.kind) == Acquired(TableOf(s, a.kind), a.key, now, lim.leaseTimeout)
    requires forall other: Kind :: other != a.kind ==> TableOf(after, other) == TableOf(s, other)
    requires Traced(s, now, [a], after, now, lim)
    ensures Ran(s, now, [a], after, now, lim)
  {
    hide InFlight, TableOf, Traced, Held;
    assert [a][..0] == [];
    assert Took([a], a.kind, a.key) by { assert [a][0].key == a.key; }
    forall k: Kind ensures KindRan(s, now, [a], after, now, k) {
      assert k != a.kind ==> TableOf(after, k) == TableOf(s, k);
    }
  }

  lemma RefusedRan(s: SlotSet, a: Attempt, after: SlotSet, now: nat, lim: Limits)
    requires !a.accepted && Ran(s, now, [], after, now, lim) && Justified(a, [], s, now, lim)
    requires Traced(s, now, [a], after, now, lim)
    ensures Ran(s, now, [a], after, now, lim)
  {
    hide TableOf, InFlight, Held, Traced;
    assert [a][..0] == [];
    assert AcceptedCount([a]) == 0;
    forall kind: Kind ensures KindRan(s, now, [a], after, now, kind) {
      assert KindRan(s, now, [], after, now, kind);
      assert AcceptedOf([a], kind) == 0;
      TookAppend([], [a], kind, a.key);
    }
  }

  lemma KindRanThen(s: SlotSet, t: nat, a: seq<Attempt>, s1: SlotSet, t1: nat,
                    b: seq<Attempt>, s2: SlotSet, t2: nat, kind: Kind)
    requires KindRan(s, t, a, s1, t1, kind) && KindRan(s1, t1, b, s2, t2, kind)
    ensures KindRan(s, t, a + b, s2, t2, kind)
  {
    AcceptedOfAppend(a, b, kind);
    hide TableOf, AcceptedOf, Held, Took, Live;
    forall key | Live(TableOf(s2, kind), key, t2)
      ensures Live(TableOf(s, kind), key, t) || Took(a + b, kind, key)
    {
      TookAppend(a, b, kind, key);
    }
  }

  lemma JustifiedThen(s: SlotSet, t: nat, a: seq<Attempt>, s1: SlotSet, t1: nat, b: seq<Attempt>, lim: Limits)
    requires AllJustified(a, s, t, lim) && AllJustified(b, s1, t1, lim)
    requires forall kind: Kind :: KindRan(s, t, a, s1, t1, kind)
    requires InFlight(s1, t1) <= InFlight(s, t) + AcceptedCount(a)
    ensures AllJustified(a + b, s, t, lim)
  {
    hide TableOf, InFlight, AcceptedCount, AcceptedOf, Held, Took, Live;
    var c := a + b;
    forall i | 0 <= i < |c| ensures Justified(c[i], c[..i], s, t, lim) {
      if i < |a| {
        assert c[..i] == a[..i];
        assert Justified(a[i], a[..i], s, t, lim);
      } else {
        var j := i - |a|;
        assert c[..i] == a + b[..j];
        assert Justified(b[j], b[..j], s1, t1, lim);
        assert KindRan(s, t, a, s1, t1, b[j].kind);
        AcceptedOfAppend(a, b[..j], b[j].kind);
        TookAppend(a, b[..j], b[j].kind, b[j].key);
      }
    }
  }

  /** Consecutive stretches compose. */
  lemma RanThen(s: SlotSet, t: nat, a: seq<Attempt>, s1: SlotSet, t1: nat,
                b: seq<Attempt>, s2: SlotSet, t2: nat, lim: Limits)
    requires Ran(s, t, a, s1, t1, lim) && Ran(s1, t1, b, s2, t2, lim)
    ensures Ran(s, t, a + b, s2, t2, lim)
  {
    hide KindRan, AllJustified, InFlight, AcceptedCount, Traced;
    TracedThen(s, t, a, s1, t1, b, s2, t2, lim);
    forall kind: Kind ensures KindRan(s, t, a + b, s2, t2, kind) {
      KindRanThen(s, t, a, s1, t1, b, s2, t2, kind);
    }
    AcceptedOfAppend(a, b, OpenTx);
    JustifiedThen(s, t, a, s1, t1, b, lim);
  }

  /** Without a granted attempt of a kind, no new slot of that kind appears. */
  lemma UntouchedKind(s: SlotSet, t: nat, attempts: seq<Attempt>, s': SlotSet, t': nat, lim: Limits, kind: Kind)
    requires Ran(s, t, attempts, s', t', lim)
    requires forall i :: 0 <= i < |attempts| ==> attempts[i].kind != kind
    ensures forall key :: Live(TableOf(s', kind), key, t') ==> Live(TableOf(s, kind), key, t)
    ensures Held(TableOf(s', kind), t') <= Held(TableOf(s, kind), t)
    ensures AcceptedOf(attempts, kind) == 0
  {
    hide TableOf, InFlight, Held, Live, Traced;
    assert KindRan(s, t, attempts, s', t', kind);
    NoneOfKind(attempts, kind);
  }

  lemma {:induction false} NoneOfKind(attempts: seq<Attempt>, kind: Kind)
    requires forall i :: 0 <= i < |attempts| ==> attempts[i].kind != kind
    ensures AcceptedOf(attempts, kind) == 0
  {
    if attempts != [] {
      NoneOfKind(attempts[..|attempts| - 1], kind);
    }
  }

  lemma {:induction false} OnlyOfKind(attempts: seq<Attempt>, kind: Kind)
    requires forall i :: 0 <= i < |attempts| ==> attempts[i].kind == kind
    ensures AcceptedOf(attempts, kind) == AcceptedCount(attempts)
  {
    if attempts != [] {
      OnlyOfKind(attempts[..|attempts| - 1], kind);
    }
  }
}
