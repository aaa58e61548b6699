/**
 The channel-lifecycle strategy as it runs: slots for in-flight chain writes, the five passes of a
 tick, the chain-event handlers and the event loop, over an environment in which time passes and
 spawned transactions report back between any two dispatches.
 */
module Strategy {
  import opened Common
  import opened Sizing
  import opened Leases
  import opened Passes
  import opened Slots
  import opened Ticks
  import Consolidation

  /** A transaction in flight, with the slot it was spawned under. */
  datatype Task = Task(kind: Kind, key: Key, holder: LeaseId)

  /** Funding or closing a channel does not clash with the other slot of that channel. */
  ghost predicate NoClash(s: SlotSet, kind: Kind, key: Key, now: nat) {
    && (kind == FundTx ==> key.Chan? && !Live(s.close, key, now))
    && (kind == CloseTx ==> key.Chan? && !Live(s.fund, key, now))
  }

  /** The ceiling of this kind has room for one more. */
  ghost predicate Room(s: SlotSet, kind: Kind, now: nat, lim: Limits) {
    && (kind == CloseTx ==> Held(s.close, now) < lim.maxClosing)
    && (kind == FinalizeTx ==> Held(s.finalize, now) < lim.maxFinalizing)
  }

  lemma SpawnKeepsExclusive(s: SlotSet, kind: Kind, key: Key, now: nat, lim: Limits)
    requires lim.leaseTimeout > 0 && Exclusive(s, now) && NoClash(s, kind, key, now)
    ensures Exclusive(Spawned(s, kind, key, now, lim).0, now)
  {
    if kind == FundTx || kind == CloseTx {
      assert TableOf(s, FundTx) == s.fund && TableOf(s, CloseTx) == s.close;
      hide Spawned, Exclusive;
      SpawnExclusiveIff(s, kind, key.id, now, lim);
    } else {
      SpawnElsewhereKeepsExclusive(s, kind, key, now, lim);
    }
  }

  /** A top-up dispatched now is granted although the channel's closure is in flight. */
  ghost predicate FundsAClosing(s: SlotSet, key: Key, now: nat, lim: Limits) {
    Grantable(s, FundTx, key, now, lim) && Live(s.close, key, now)
  }

  /** An opening finds the channel open and depleted, with enough to spend for a top-up. */
  predicate Redirected(found: Option<Channel>, f: ResolvedFunding, safeRemaining: nat) {
    found.Some? && found.value.status.Open? && found.value.balance < f.lowerThreshold && safeRemaining >= f.topup
  }

  lemma DispatchExclusiveIff(s: SlotSet, kind: Kind, key: Key, now: nat, lim: Limits)
    requires lim.leaseTimeout > 0 && Exclusive(s, now) && (kind == OpenTx || (kind == FundTx && key.Chan?))
    ensures Exclusive(Spawned(s, kind, key, now, lim).0, now) <==> !(kind == FundTx && FundsAClosing(s, key, now, lim))
  {
    hide Spawned, Exclusive;
    if kind == FundTx {
      assert TableOf(s, CloseTx) == s.close;
      SpawnExclusiveIff(s, kind, key.id, now, lim);
    } else {
      SpawnElsewhereKeepsExclusive(s, kind, key, now, lim);
    }
  }

  /** A clash: attempt `nth` was a top-up granted, on the slots it met at `at`, while the closure of its
      channel was in flight. */
  datatype Clash = Clash(nth: nat, slots: SlotSet, at: nat)

  ghost predicate ClashIn(c: Clash, attempts: seq<Attempt>, s: SlotSet, t: nat, lim: Limits) {
    && c.nth < |attempts| && attempts[c.nth].kind == FundTx && attempts[c.nth].accepted && attempts[c.nth].key.Chan?
    && Ran(s, t, attempts[..c.nth], c.slots, c.at, lim) && FundsAClosing(c.slots, attempts[c.nth].key, c.at, lim)
  }

  /** All of these are clashes among the attempts, which were dispatched from slots `s` at `t` on. */
  ghost predicate AreClashes(clashes: seq<Clash>, attempts: seq<Attempt>, s: SlotSet, t: nat, lim: Limits) {
    forall i :: 0 <= i < |clashes| ==> ClashIn(clashes[i], attempts, s, t, lim)
  }

  /** From a clash on, until one of its two slots is given back, the channel holds both. */
  lemma ClashBreaksExclusion(c: Clash, attempts: seq<Attempt>, s: SlotSet, t: nat, lim: Limits)
    requires lim.leaseTimeout > 0 && ClashIn(c, attempts, s, t, lim)
    ensures !Exclusive(Spawned(c.slots, FundTx, attempts[c.nth].key, c.at, lim).0, c.at)
  {
    var key := attempts[c.nth].key;
    SpawnGrants(c.slots, FundTx, key, c.at, lim);
    hide Spawned, InFlight, HeldKeys, Ran;
    var after := Spawned(c.slots, FundTx, key, c.at, lim).0;
    assert TableOf(after, FundTx) == after.fund && TableOf(after, CloseTx) == after.close;
    assert TableOf(c.slots, CloseTx) == c.slots.close;
    assert Live(after.fund, Chan(key.id), c.at) && Live(after.close, Chan(key.id), c.at);
  }

  lemma ClashesAmongMore(clashes: seq<Clash>, a: seq<Attempt>, more: seq<Clash>,
                         b: seq<Attempt>, s: SlotSet, t: nat, lim: Limits)
    requires AreClashes(clashes, a, s, t, lim) && AreClashes(more, a + b, s, t, lim)
    ensures AreClashes(clashes + more, a + b, s, t, lim)
  {
    hide Ran, FundsAClosing;
    forall i | 0 <= i < |clashes| ensures ClashIn(clashes[i], a + b, s, t, lim) {
      assert ClashIn(clashes[i], a, s, t, lim);
      assert (a + b)[..clashes[i].nth] == a[..clashes[i].nth];
    }
    hide ClashIn;
  }

  lemma ClashAtEnd(a: seq<Attempt>, key: Key, amount: nat, met: SlotSet, now: nat, s: SlotSet, t: nat, lim: Limits)
    requires Ran(s, t, a, met, now, lim) && FundsAClosing(met, key, now, lim) && key.Chan?
    ensures AreClashes([Clash(|a|, met, now)], a + [Attempt(FundTx, key, amount, true)], s, t, lim)
  {
    hide Ran, FundsAClosing;
    var all := a + [Attempt(FundTx, key, amount, true)];
    assert all[..|a|] == a;
  }

  function Shifted(clashes: seq<Clash>, offset: nat): seq<Clash> {
    seq(|clashes|, i requires 0 <= i < |clashes| => clashes[i].(nth := clashes[i].nth + offset))
  }

  /** Clashes of a later stretch are clashes of the whole. */
  lemma ClashesOfTheWhole(clashes: seq<Clash>, before: seq<Attempt>, made: seq<Attempt>,
                          s: SlotSet, t: nat, s1: SlotSet, t1: nat, lim: Limits)
    requires Ran(s, t, before, s1, t1, lim) && AreClashes(clashes, made, s1, t1, lim)
    ensures AreClashes(Shifted(clashes, |before|), before + made, s, t, lim)
  {
    var all := before + made;
    hide Ran, FundsAClosing;
    forall i | 0 <= i < |clashes| ensures ClashIn(Shifted(clashes, |before|)[i], all, s, t, lim) {
      var c := clashes[i];
      assert ClashIn(c, made, s1, t1, lim);
      RanThen(s, t, before, s1, t1, made[..c.nth], c.slots, c.at, lim);
      assert all[..c.nth + |before|] == before + made[..c.nth];
    }
  }

  lemma ClosingIsGranted(s: SlotSet, key: Key, now: nat, lim: Limits)
    requires lim.leaseTimeout > 0 && FundsAClosing(s, key, now, lim)
    ensures Spawned(s, FundTx, key, now, lim).1
  {
    SpawnGrants(s, FundTx, key, now, lim);
    hide Spawned;
  }

  lemma NoClashes(attempts: seq<Attempt>, s: SlotSet, t: nat, lim: Limits)
    ensures AreClashes([], attempts, s, t, lim)
  {}

  lemma CalmKeepsRoom(s: SlotSet, t: nat, after: SlotSet, u: nat, kind: Kind, key: Key, lim: Limits)
    requires Calmer(s, t, after, u)
    ensures Room(s, kind, t, lim) ==> Room(after, kind, u, lim)
    ensures NoClash(s, kind, key, t) ==> NoClash(after, kind, key, u)
  {
    hide Live, Held, Calmer;
    CalmerKeeps(s, t, after, u, lim);
  }

  /** While nothing of a kind is granted, its slots only become free. */
  lemma StaysFree(s: SlotSet, t: nat, attempts: seq<Attempt>, s': SlotSet, t': nat, lim: Limits, kind: Kind, key: Key)
    requires Ran(s, t, attempts, s', t', lim) && !Live(TableOf(s, kind), key, t)
    requires forall i :: 0 <= i < |attempts| ==> attempts[i].kind != kind
    ensures !Live(TableOf(s', kind), key, t')
  {
    hide Ran, Live, TableOf;
    UntouchedKind(s, t, attempts, s', t', lim, kind);
  }

  ghost predicate AllOfKind(attempts: seq<Attempt>, kind: Kind) {
    forall i :: 0 <= i < |attempts| ==> attempts[i].kind == kind
  }

  /** The slots of a kind are at most those held before plus those granted since. */
  lemma HeldAtMost(s: SlotSet, t: nat, attempts: seq<Attempt>, s': SlotSet, t': nat, lim: Limits, kind: Kind)
    requires Ran(s, t, attempts, s', t', lim)
    requires AllOfKind(attempts, kind)
    ensures Held(TableOf(s', kind), t') <= Held(TableOf(s, kind), t) + AcceptedCount(attempts)
  {
    assert KindRan(s, t, attempts, s', t', kind);
    hide KindRan, TableOf, Held;
    OnlyOfKind(attempts, kind);
  }

  lemma SameSlotsLater(s: SlotSet, t: nat, later: nat)
    requires t <= later
    ensures Calmer(s, t, s, later)
  {}

  /** None of the channels has a closure in flight. */
  ghost predicate NotClosing(cs: seq<Channel>, s: SlotSet, now: nat) {
    forall i :: 0 <= i < |cs| ==> !Live(s.close, Chan(cs[i].id), now)
  }

  lemma CandidatesNotClosing(cfg: Config, channels: seq<Channel>, s: SlotSet, now: nat, f: ResolvedFunding, seen: Reads)
    ensures NotClosing(FundCandidates(cfg, Opened(channels), s, now, f, seen), s, now)
  {
    hide FundCandidates, Live;
    var cs := FundCandidates(cfg, Opened(channels), s, now, f, seen);
    forall i | 0 <= i < |cs| ensures !Live(s.close, Chan(cs[i].id), now) {
      assert cs[i] in cs;
      CandidatesAreChannels(cfg, channels, s, now, f, seen, cs[i]);
    }
  }

  /** A funding dispatch on a channel that was not closing when the pass began does not clash. */
  lemma FundingDoesNotClash(s: SlotSet, t: nat, attempts: seq<Attempt>,
                            s': SlotSet, t': nat, lim: Limits, id: ChannelId)
    requires Ran(s, t, attempts, s', t', lim) && AllOfKind(attempts, FundTx) && !Live(s.close, Chan(id), t)
    ensures NoClash(s', FundTx, Chan(id), t') && Room(s', FundTx, t', lim)
  {
    hide Ran, Live;
    StaysFree(s, t, attempts, s', t', lim, CloseTx, Chan(id));
  }

  lemma FundBegins(f: ResolvedFunding, stranded: bool, budget: nat)
    requires f.face > 0
    ensures FundFold([], [], f, stranded, budget) == FundState([], {}, budget, false, false)
  {}

  ghost predicate SameStreak(a: map<Address, nat>, b: map<Address, nat>, dest: Address) {
    (dest in a <==> dest in b) && StreakOf(a, dest) == StreakOf(b, dest)
  }

  /** The destinations of the first `n` channels are up to date, the others still as before. */
  ghost predicate Updated(streak: map<Address, nat>, before: map<Address, nat>, target: map<Address, nat>,
                          open: seq<Channel>, n: nat) {
    forall j :: 0 <= j < |open| ==> SameStreak(streak, if j < n then target else before, open[j].destination)
  }

  lemma UpdatedNext(streak: map<Address, nat>, before: map<Address, nat>,
                    target: map<Address, nat>, open: seq<Channel>, n: nat)
    requires n < |open| && Distinct(open) && Updated(streak, before, target, open, n)
    ensures var d := open[n].destination;
            && (d in target ==> Updated(streak[d := StreakOf(target, d)], before, target, open, n + 1))
            && (d !in target ==> Updated(streak - {d}, before, target, open, n + 1))
  {
    var d := open[n].destination;
    forall j | 0 <= j < |open|
      ensures d in target ==>
                SameStreak(streak[d := StreakOf(target, d)], if j < n + 1 then target else before, open[j].destination)
      ensures d !in target ==> SameStreak(streak - {d}, if j < n + 1 then target else before, open[j].destination)
    {
      assert SameStreak(streak, if j < n then target else before, open[j].destination);
      assert j != n ==> open[j].destination != d;
    }
  }

  lemma StreakSnoc(history: seq<Sighting>, seen: Sighting)
    ensures StreakAfter(history + [seen]) == NextStreak(StreakAfter(history), seen)
  {
    assert (history + [seen])[..|history|] == history;
  }

  lemma UpdatedStart(before: map<Address, nat>, target: map<Address, nat>, open: seq<Channel>)
    ensures Updated(map d | d in before && d in Destinations(open) :: before[d], before, target, open, 0)
  {
    forall j | 0 <= j < |open| ensures open[j].destination in Destinations(open) {
      assert open[j] in open;
    }
  }

  /** What the next destination's streak becomes, read off the map the loop is updating. */
  lemma TargetOf(streak: map<Address, nat>, before: map<Address, nat>, open: seq<Channel>, down: set<Address>, n: nat)
    requires n < |open| && Updated(streak, before, NextStreak(before, Sighting(Destinations(open), down)), open, n)
    ensures var target := NextStreak(before, Sighting(Destinations(open), down));
            var d := open[n].destination;
            && (d in target <==> d in down)
            && StreakOf(target, d) == (if d in down then StreakOf(streak, d) + 1 else 0)
            && d in Destinations(open)
  {
    assert open[n] in open;
    assert SameStreak(streak, before, open[n].destination);
  }

  lemma UpdatedAll(streak: map<Address, nat>, before: map<Address, nat>, target: map<Address, nat>, open: seq<Channel>)
    requires Updated(streak, before, target, open, |open|)
    requires streak.Keys <= Destinations(open) && target.Keys <= Destinations(open)
    ensures streak == target
  {
    forall d | d in Destinations(open) ensures SameStreak(streak, target, d) {
      var c :| c in open && c.destination == d;
      var j :| 0 <= j < |open| && open[j] == c;
      assert SameStreak(streak, target, open[j].destination);
    }
  }

  lemma NothingRetirable(open: seq<Channel>, down: set<Address>, streak: map<Address, nat>, debounce: nat)
    ensures Retirable(open[..0], down, streak, debounce) == {}
  {}

  lemma RetirableNext(open: seq<Channel>, down: set<Address>, streak: map<Address, nat>, debounce: nat, n: nat)
    requires n < |open|
    ensures var c := open[n];
            Retirable(open[..n + 1], down, streak, debounce)
            == Retirable(open[..n], down, streak, debounce)
               + (if c.destination in down && StreakOf(streak, c.destination) >= Max(debounce, 1) then {c.id} else {})
  {
    assert open[..n + 1] == open[..n] + [open[n]];
  }

  /** The cap on closures, counted from what was in flight, leaves room for one more. */
  lemma ClosingHasRoom(s: SlotSet, t: nat, attempts: seq<Attempt>, s': SlotSet, t': nat, lim: Limits)
    requires Ran(s, t, attempts, s', t', lim) && AllOfKind(attempts, CloseTx)
    requires Held(s.close, t) + AcceptedCount(attempts) < lim.maxClosing
    ensures Room(s', CloseTx, t', lim)
  {
    hide Ran, Held;
    HeldAtMost(s, t, attempts, s', t', lim, CloseTx);
  }

  lemma FinalizingHasRoom(s: SlotSet, t: nat, attempts: seq<Attempt>, s': SlotSet, t': nat, lim: Limits)
    requires Ran(s, t, attempts, s', t', lim) && AllOfKind(attempts, FinalizeTx)
    requires Held(s.finalize, t) + AcceptedCount(attempts) < lim.maxFinalizing
    ensures Room(s', FinalizeTx, t', lim)
  {
    hide Ran, Held;
    HeldAtMost(s, t, attempts, s', t', lim, FinalizeTx);
  }

  /** A slot found held inside a pass was held when the pass began or was taken by the pass. */
  lemma BusyHasCause(s: SlotSet, t: nat, attempts: seq<Attempt>, s': SlotSet, t': nat,
                     lim: Limits, id: ChannelId, kinds: set<Kind>, kind: Kind)
    requires Ran(s, t, attempts, s', t', lim) && kind in kinds && Live(TableOf(s', kind), Chan(id), t')
    ensures BusyId(id, kinds, s, t, attempts)
  {
    assert KindRan(s, t, attempts, s', t', kind);
  }

  lemma BusyStays(answers: seq<CloseAnswer>, ids: seq<ChannelId>, kinds: set<Kind>,
                  s: SlotSet, t: nat, attempts: seq<Attempt>, more: seq<Attempt>)
    requires |answers| == |ids| && BusyForCause(answers, ids, kinds, s, t, attempts)
    ensures BusyForCause(answers, ids, kinds, s, t, attempts + more)
  {
    hide Took, Live;
    forall i | 0 <= i < |answers| && answers[i].busy ensures BusyId(ids[i], kinds, s, t, attempts + more) {
      assert BusyId(ids[i], kinds, s, t, attempts);
      var kind: Kind :|
        kind in kinds && (Live(TableOf(s, kind), Chan(ids[i]), t) || Took(attempts, kind, Chan(ids[i])));
      TookAppend(attempts, more, kind, Chan(ids[i]));
    }
  }

  lemma BusyNext(answers: seq<CloseAnswer>, answer: CloseAnswer, ids: seq<ChannelId>,
                 i: nat, kinds: set<Kind>, s: SlotSet, t: nat, attempts: seq<Attempt>)
    requires i < |ids| && |answers| == i && BusyForCause(answers, ids[..i], kinds, s, t, attempts)
    requires answer.busy ==> BusyId(ids[i], kinds, s, t, attempts)
    ensures BusyForCause(answers + [answer], ids[..i + 1], kinds, s, t, attempts)
  {
    hide BusyId;
    assert forall j :: 0 <= j < i ==> ids[..i][j] == ids[..i + 1][j];
  }

  lemma BusyPadded(answers: seq<CloseAnswer>, ids: seq<ChannelId>,
                   kinds: set<Kind>, s: SlotSet, t: nat, attempts: seq<Attempt>)
    requires |answers| <= |ids| && BusyForCause(answers, ids[..|answers|], kinds, s, t, attempts)
    ensures BusyForCause(answers + seq(|ids| - |answers|, _ => CloseAnswer(false, false)), ids, kinds, s, t, attempts)
  {
    hide BusyId;
  }

  lemma CloseBegins(ids: seq<ChannelId>, kinds: set<Kind>, s: SlotSet, t: nat, g: CloseGuards, closeCount: nat)
    ensures CloseFold(ids[..0], [], g, closeCount) == CloseState([], closeCount, 0, false) && AcceptedCount([]) == 0
    ensures BusyForCause([], ids[..0], kinds, s, t, [])
  {}

  lemma AcceptedMore(attempts: seq<Attempt>, made: seq<Attempt>, accepted: bool)
    requires (made == [] && !accepted) || (|made| == 1 && made[0].accepted == accepted)
    ensures AcceptedCount(attempts + made) == AcceptedCount(attempts) + if accepted then 1 else 0
  {
    if made == [] {
      assert attempts + made == attempts;
    } else {
      AttemptSnoc(attempts, made[0]);
      assert made == [made[0]];
    }
  }

  lemma FreeOfClash(s: SlotSet, now: nat, id: ChannelId)
    requires !Live(s.fund, Chan(id), now)
    ensures NoClash(s, CloseTx, Chan(id), now)
  {}

  lemma ReclaimBegins(closeCount: nat, cap: nat)
    ensures ReclaimFold([], [], closeCount, cap) == ReclaimState([], closeCount, false) && AcceptedCount([]) == 0
  {}

  lemma TopUpBegins(face: nat, budget: nat)
    ensures TopUpFold([], [], face, budget) == TopUpState([], budget, false, false)
  {}

  /** None of the channels has a top-up in flight. */
  ghost predicate NotFunding(ids: seq<ChannelId>, s: SlotSet, now: nat) {
    forall i :: 0 <= i < |ids| ==> !Live(s.fund, Chan(ids[i]), now)
  }

  lemma ClosesAreFree(open: seq<Channel>, deferred: set<ChannelId>, s: SlotSet, now: nat,
                      quality: map<ChannelId, real>, safe: nat, reclaiming: nat, face: nat)
    ensures var under := Ranked(Filter(open, IsFree(deferred, s, now)), quality);
            var ids := Consolidation.ConsolidationCloses(under, safe, reclaiming, face);
            NotFunding(ids, s, now)
  {
    hide Live, Consolidation.ConsolidationCloses;
    var under := Filter(open, IsFree(deferred, s, now));
    var ids := Consolidation.ConsolidationCloses(Ranked(under, quality), safe, reclaiming, face);
    forall i | 0 <= i < |ids| ensures !Live(s.fund, Chan(ids[i]), now) {
      assert ids[i] in ids;
      IdsOfRanked(under, quality, ids[i], safe, reclaiming, face);
      var c :| c in under && c.id == ids[i];
      assert IsFree(deferred, s, now)(c);
    }
  }

  lemma SurvivorsNotClosing(channels: seq<Channel>, deferred: set<ChannelId>,
                            closes: seq<ChannelId>, s: SlotSet, now: nat)
    ensures NotClosing(Survivors(Opened(channels), deferred, closes, s, now), s, now)
  {
    hide Live, Survivors;
    var cs := Survivors(Opened(channels), deferred, closes, s, now);
    forall i | 0 <= i < |cs| ensures !Live(s.close, Chan(cs[i].id), now) {
      assert cs[i] in cs;
      SurvivorsAreChannels(channels, deferred, closes, s, now, cs[i]);
    }
  }

  lemma FinalizeBegins(ids: seq<ChannelId>, kinds: set<Kind>, s: SlotSet, t: nat,
                       cap: nat, wallClock: nat, overdue: nat, count: nat)
    ensures FinalizeFold([], [], cap, wallClock, overdue, count) == FinalizeState([], count, false)
    ensures AcceptedCount([]) == 0
    ensures BusyForCause([], ids[..0], kinds, s, t, [])
  {}

  lemma OpenBegins(addrs: seq<Address>, found: seq<Option<Channel>>, f: ResolvedFunding, budget: nat)
    requires |addrs| == |found|
    ensures OpenFold(addrs[..0], found[..0], [], f, budget) == OpenState([], budget, false, false)
  {}

  lemma OpenStepStops(st: OpenState, addr: Address, found: Option<Channel>, f: ResolvedFunding, accepted: bool)
    requires !st.stopped && st.budget < f.initial
    ensures OpenStep(st, addr, found, f, accepted) == st.(short := true, stopped := true)
  {}

  /** A channel that was not closing is not, unless a closure was dispatched since. */
  lemma StaysClear(s: SlotSet, t: nat, attempts: seq<Attempt>, met: SlotSet, now: nat, lim: Limits, key: Key)
    requires Ran(s, t, attempts, met, now, lim) && NotOfKind(attempts, CloseTx) && !Live(s.close, key, t)
    ensures !FundsAClosing(met, key, now, lim)
  {
    hide Ran, Live;
    StaysFree(s, t, attempts, met, now, lim, CloseTx, key);
  }

  lemma NoClashElsewhere(s: SlotSet, kind: Kind, key: Key, now: nat)
    requires kind == OpenTx || kind == FinalizeTx
    ensures NoClash(s, kind, key, now)
  {}

  lemma NoCeiling(s: SlotSet, kind: Kind, now: nat, lim: Limits)
    requires kind == OpenTx || kind == FundTx
    ensures Room(s, kind, now, lim)
  {}

  ghost predicate NotOfKind(attempts: seq<Attempt>, kind: Kind) {
    forall i :: 0 <= i < |attempts| ==> attempts[i].kind != kind
  }

  /** No top-up among the attempts is of a channel whose closure was in flight at `now`. */
  ghost predicate NoneClosing(attempts: seq<Attempt>, s: SlotSet, now: nat) {
    forall i :: 0 <= i < |attempts| && attempts[i].kind == FundTx ==>
        attempts[i].key.Chan? && !Live(s.close, attempts[i].key, now)
  }

  lemma NoneClosingSplit(a: seq<Attempt>, b: seq<Attempt>, s: SlotSet, now: nat)
    ensures NoneClosing(a + b, s, now) ==> NoneClosing(a, s, now) && NoneClosing(b, s, now)
  {
    hide Live;
    var c := a + b;
    assert forall i :: 0 <= i < |a| ==> a[i] == c[i];
    assert forall i :: 0 <= i < |b| ==> b[i] == c[|a| + i];
  }

  lemma OpeningDoesNotClash(s: SlotSet, t: nat, attempts: seq<Attempt>, s': SlotSet,
                            t': nat, lim: Limits, kind: Kind, key: Key)
    requires Ran(s, t, attempts, s', t', lim) && NotOfKind(attempts, CloseTx) && (kind == OpenTx || kind == FundTx)
    requires kind == FundTx ==> key.Chan? && !Live(s.close, key, t)
    ensures NoClash(s', kind, key, t')
  {
    hide Ran, Live;
    if kind == FundTx {
      StaysFree(s, t, attempts, s', t', lim, CloseTx, key);
    }
  }

  function MadeBy(report: Option<Report>): seq<Attempt> {
    if report.Some? then AllAttempts(report.value) else []
  }

  /** What the tick adds to the record of the peers' connectivity. */
  function Sightings(seen: Reads, r: Report): seq<Sighting>
    requires seen.channels.Some?
  {
    if r.close.Some? then [Sighting(Destinations(Opened(seen.channels.value)), DownAtClosing(seen))] else []
  }

  /** The open pass redirected no opening into a top-up of a channel whose closure was in flight. */
  ghost predicate RedirectsClear(r: Report) {
    r.open.Some? ==> NoneClosing(r.open.value.result.attempts, r.open.value.slots, r.open.value.at)
  }

  /** The report grew pass by pass: each stage fills in its own part. */
  ghost predicate Grew(r1: Report, r2: Report, r3: Report, r4: Report, r: Report) {
    && r2 == r1.(phaseAt := r2.phaseAt, phase := r2.phase, close := r2.close)
    && r3 == r2.(reclaim := r3.reclaim, topup := r3.topup)
    && r4 == r3.(finalize := r4.finalize)
    && r == r4.(open := r.open)
  }

  lemma Assembled(cfg: Config, start: nat, channels: seq<Channel>, streak: map<Address, nat>,
                  seen: Reads, r1: Report, r2: Report, r3: Report, r4: Report, r: Report)
    requires Grew(r1, r2, r3, r4, r)
    requires r.openCount == |Opened(channels)| + Held(r.slots.open, r.at)
    requires FundPart(cfg, channels, seen, r1) && ClosePart(cfg, start, channels, streak, seen, r2)
    requires FundPart(cfg, channels, seen, r3) && ReclaimPart(cfg, channels, seen, r3)
    requires FinalizePart(cfg, channels, seen, r4) && OpenPart(cfg, seen, r)
    ensures TickOutcome(cfg, start, channels, streak, seen, r)
    ensures Worse(Worse(Worse(Worse(Running, FundVerdict(r1)), CloseVerdict(channels, seen, r2)),
              ConsolidationVerdict(r3)),
                  OpenVerdict(cfg, seen, r))
            == SeverityOf(cfg, channels, seen, r)
  {
    hide FundPart, ClosePart, ReclaimPart, FinalizePart, OpenPart, Worse, FundVerdict, CloseVerdict,
      ConsolidationVerdict, OpenVerdict, SeverityOf, Held, Filter;
    PartsKept(cfg, start, channels, streak, seen, r1, r);
    PartsKept(cfg, start, channels, streak, seen, r2, r);
    PartsKept(cfg, start, channels, streak, seen, r3, r);
    PartsKept(cfg, start, channels, streak, seen, r4, r);
    VerdictsKept(cfg, channels, seen, r1, r2, r3, r);
    VerdictsAddUp(cfg, start, channels, streak, seen, r);
  }

  lemma AssembledInOrder(s: SlotSet, t: nat, r1: Report, r2: Report, r3: Report, r4: Report, r: Report, lim: Limits)
    requires Grew(r1, r2, r3, r4, r)
    requires Ran(s, t, [], r1.slots, r1.at, lim) && r.at <= r.phaseAt
    requires r1.fund.Some? ==> Ran(s, t, [], r1.fund.value.slots, r1.fund.value.at, lim)
    requires r2.close.Some? ==> Ran(s, t, FundAttempts(r1), r2.close.value.slots, r2.close.value.at, lim)
    requires r3.reclaim.Some? ==>
               Ran(s, t, FundAttempts(r1) + CloseAttempts(r2), r3.reclaim.value.slots, r3.reclaim.value.at, lim)
    requires r3.topup.Some? ==>
               Ran(s, t, FundAttempts(r1) + CloseAttempts(r2) + ReclaimAttempts(r3),
                   r3.topup.value.slots, r3.topup.value.at, lim)
    requires r4.finalize.Some? ==>
               Ran(s, t, FundAttempts(r1) + CloseAttempts(r2) + ReclaimAttempts(r3) + TopUpAttempts(r3),
                   r4.finalize.value.slots, r4.finalize.value.at, lim)
    requires r.open.Some? ==>
               Ran(s, t, FundAttempts(r1) + CloseAttempts(r2) + ReclaimAttempts(r3) + TopUpAttempts(r3)
                         + FinalizeAttempts(r4),
                   r.open.value.slots, r.open.value.at, lim)
    ensures InOrder(s, t, r, lim)
    ensures AllAttempts(r) == FundAttempts(r1) + CloseAttempts(r2) + ReclaimAttempts(r3) + TopUpAttempts(r3)
                              + FinalizeAttempts(r4) + OpenAttempts(r)
    ensures r.close == r2.close
  {
    hide Ran;
  }

  lemma VerdictsKept(cfg: Config, channels: seq<Channel>, seen: Reads, r1: Report, r2: Report, r3: Report, r: Report)
    requires r1.fund == r.fund && r2.close == r.close && r3.reclaim == r.reclaim && r3.topup == r.topup
    ensures FundVerdict(r1) == FundVerdict(r) && CloseVerdict(channels, seen, r2) == CloseVerdict(channels, seen, r)
    ensures ConsolidationVerdict(r3) == ConsolidationVerdict(r)
  {
    hide AcceptedCount, Filter;
  }

  lemma NothingAccepted()
    ensures AcceptedCount([]) == 0
  {}

  /** A balance decrease of `c` calls for a top-up, given what the Safe read returned. */
  predicate CallsForTopUp(c: Channel, safe: Option<SafeInfo>, f: Option<ResolvedFunding>) {
    && c.status.Open? && f.Some? && c.balance < f.value.lowerThreshold
    && SafeBudget(safe).Some? && f.value.topup > 0 && SafeBudget(safe).value.spendable >= f.value.topup
  }

  /** Said of the reads alone: the channel is open and below the threshold, a top-up exists, and both the balance and
      the allowance of a registered Safe cover it. */
  lemma CallsForTopUpIff(c: Channel, safe: Option<SafeInfo>, f: Option<ResolvedFunding>)
    ensures CallsForTopUp(c, safe, f) <==>
              && c.status.Open? && f.Some? && c.balance < f.value.lowerThreshold && f.value.topup > 0
              && safe.Some? && safe.value.Registered?
              && safe.value.balance >= f.value.topup && safe.value.allowance >= f.value.topup
  {}

  /** It is answered by asking for exactly that top-up, unless one is in flight already. */
  ghost predicate AnswersWith(made: seq<Attempt>, c: Channel, safe: Option<SafeInfo>,
                              f: Option<ResolvedFunding>, s: SlotSet, t: nat)
  {
    if CallsForTopUp(c, safe, f) && !Live(s.fund, Chan(c.id), t)
    then exists ok: bool :: made == [Attempt(FundTx, Chan(c.id), f.value.topup, ok)]
    else made == []
  }

  /** From any slots with room for two more: once the closure of a free channel is dispatched, a balance
      decrease that calls for a top-up asks for one, and it is granted. */
  lemma BalanceEventFundsAClosing(c: Channel, safe: Option<SafeInfo>, f: Option<ResolvedFunding>,
                                  s: SlotSet, now: nat, lim: Limits, made: seq<Attempt>)
    requires lim.leaseTimeout > 0 && Exclusive(s, now) && InFlight(s, now) + 1 < lim.maxActions
    requires !Live(s.close, Chan(c.id), now) && !Live(s.fund, Chan(c.id), now) && CallsForTopUp(c, safe, f)
    requires AnswersWith(made, c, safe, f, Spawned(s, CloseTx, Chan(c.id), now, lim).0, now)
    ensures var closing := Spawned(s, CloseTx, Chan(c.id), now, lim).0;
            && Exclusive(closing, now) && |made| == 1 && made[0].kind == FundTx && made[0].key == Chan(c.id)
            && FundsAClosing(closing, made[0].key, now, lim)
            && !Exclusive(Spawned(closing, FundTx, made[0].key, now, lim).0, now)
  {
    FundingAfterClosingBreaksExclusion(s, c.id, now, lim);
    SpawnGrants(s, CloseTx, Chan(c.id), now, lim);
    var closing := Spawned(s, CloseTx, Chan(c.id), now, lim).0;
    SpawnGrants(closing, FundTx, Chan(c.id), now, lim);
    hide Spawned, Exclusive, InFlight, HeldKeys;
    assert TableOf(closing, FundTx) == s.fund && TableOf(closing, CloseTx) == closing.close;
  }

  /** What the event loop serves: timer ticks and events on this node's outgoing channels. */
  datatype Event =
    | TickDue(seen: Reads)
    | BalanceDecreased(c: Channel, safe: Option<SafeInfo>)
    | BalanceIncreased(c: Channel)
    | ChannelOpened(c: Channel)
    | ClosureInitiated(c: Channel)
    | ChannelClosed(c: Channel)
    | Other

  ghost predicate WellFormed(e: Event) {
    e.TickDue? && e.seen.channels.Some? ==> Distinct(e.seen.channels.value)
  }

  /** Only the passes fund channels: no event-driven top-up, no opening redirected into a top-up. */
  ghost predicate PassesOnly(e: Event) {
    !e.BalanceDecreased? && (e.TickDue? ==> forall addr :: addr in e.seen.reread ==> !e.seen.reread[addr].status.Open?)
  }

  datatype TickRecord = TickRecord(seen: Reads, report: Report)

  /** How one event was served: the slots it found and when, what it asked for, its tick if it was one, which of
      its top-ups clashed, and the slots it left. */
  datatype Served = Served(slots: SlotSet, at: nat, made: seq<Attempt>, record: seq<TickRecord>, clashes: seq<Clash>,
                           left: SlotSet)

  /** `after` is `before` with the slot of `key` given up, whoever held it, and all else as it was. */
  ghost predicate Frees(before: Table<Key>, after: Table<Key>, key: Key) {
    && key !in after.leases && after.nextHolder == before.nextHolder
    && forall k :: k != key ==>
         (k in after.leases <==> k in before.leases) && (k in before.leases ==> after.leases[k] == before.leases[k])
  }

  /** What of `before` has not expired, and nothing else. */
  ghost predicate OnlyUnexpired(before: Table<Key>, after: Table<Key>, now: nat) {
    && after.nextHolder == before.nextHolder
    && (forall key :: key in after.leases <==> key in before.leases && before.leases[key].until > now)
    && (forall key :: key in after.leases ==> after.leases[key] == before.leases[key])
  }

  lemma SweptIsUnexpired(t: Table<Key>, now: nat)
    ensures OnlyUnexpired(t, Swept(t, now), now) && Shrunk(t, Swept(t, now))
  {}

  /** What an event that only reports how a chain write went does to the slots: it frees the one that write held. */
  ghost predicate Settles(e: Event, before: SlotSet, after: SlotSet) {
    match e
    case BalanceIncreased(c) => after == before.(fund := after.fund) && Frees(before.fund, after.fund, Chan(c.id))
    case ChannelOpened(c) => after == before.(open := after.open) && Frees(before.open, after.open, Peer(c.destination))
    case ClosureInitiated(c) => after == before.(close := after.close) && Frees(before.close, after.close, Chan(c.id))
    case ChannelClosed(c) =>
      after == before.(finalize := after.finalize) && Frees(before.finalize, after.finalize, Chan(c.id))
    case Other => after == before
    case _ => true
  }

  /** The slot an event frees. */
  function SlotOf(e: Event): Option<(Kind, Key)> {
    match e
    case BalanceIncreased(c) => Some((FundTx, Chan(c.id)))
    case ChannelOpened(c) => Some((OpenTx, Peer(c.destination)))
    case ClosureInitiated(c) => Some((CloseTx, Chan(c.id)))
    case ChannelClosed(c) => Some((FinalizeTx, Chan(c.id)))
    case _ => None
  }

  lemma ReleaseSettles(e: Event, s: SlotSet)
    requires SlotOf(e).Some?
    ensures var slot := SlotOf(e).value;
            Settles(e, s, WithTable(s, slot.0, Released(TableOf(s, slot.0), slot.1)))
  {}

  lemma NothingToSettle(e: Event, s: SlotSet, after: SlotSet)
    requires e.TickDue? || e.BalanceDecreased? || (e.Other? && after == s)
    ensures Settles(e, s, after)
  {}

  /** A tick asks for what its report says and nothing else, a balance decrease for its top-up, and the
      other events for nothing; those free a slot. */
  ghost predicate EventServed(e: Event, r: Served, f: Option<ResolvedFunding>, lim: Limits) {
    && AreClashes(r.clashes, r.made, r.slots, r.at, lim) && (PassesOnly(e) ==> r.clashes == [])
    && Settles(e, r.slots, r.left)
    && match e
    case TickDue(seen) =>
      if seen.channels.Some? then
        && |r.record| == 1 && r.record[0].seen == seen && InOrder(r.slots, r.at, r.record[0].report, lim)
        && r.made == AllAttempts(r.record[0].report)
      else r.record == [] && r.made == []
    case BalanceDecreased(c, safe) => r.record == [] && AnswersWith(r.made, c, safe, f, r.slots, r.at)
    case _ => r.record == [] && r.made == []
  }

  /** No top-up was granted while the closure of its channel was in flight. */
  ghost predicate NeverClashed(served: seq<Served>) {
    forall i :: 0 <= i < |served| ==> served[i].clashes == []
  }

  lemma NeverClashedMore(served: seq<Served>, r: Served)
    ensures NeverClashed(served + [r]) <==> NeverClashed(served) && r.clashes == []
  {
    var more := served + [r];
    assert forall i :: 0 <= i < |served| ==> more[i] == served[i];
    assert more[|served|] == r;
  }

  lemma PassesNeverClash(events: seq<Event>, served: seq<Served>,
                         f: Option<ResolvedFunding>, s: SlotSet, t: nat, lim: Limits)
    requires AllServed(events, served, f, s, t, lim)
    ensures (forall i :: 0 <= i < |events| ==> PassesOnly(events[i])) ==> NeverClashed(served)
  {
    hide PassesOnly, Ran, AreClashes, InOrder, AllAttempts, FundingAfter, MadeOf, AnswersWith;
    if forall i :: 0 <= i < |events| ==> PassesOnly(events[i]) {
      forall i | 0 <= i < |served| ensures served[i].clashes == [] {
        assert ServedInTurn(events, served, i, f, s, t, lim);
      }
    }
  }

  function TicksOf(served: seq<Served>): seq<TickRecord> {
    if served == [] then [] else TicksOf(served[..|served| - 1]) + served[|served| - 1].record
  }

  function MadeOf(served: seq<Served>): seq<Attempt> {
    if served == [] then [] else MadeOf(served[..|served| - 1]) + served[|served| - 1].made
  }

  /** The amounts event handlers go by: those of the last tick that could resolve any. */
  function FundingAfter(base: Option<ResolvedFunding>, served: seq<Served>): Option<ResolvedFunding> {
    if served == [] then base
    else FundingNext(FundingAfter(base, served[..|served| - 1]), served[|served| - 1].record)
  }

  function FundingNext(f: Option<ResolvedFunding>, record: seq<TickRecord>): Option<ResolvedFunding> {
    if record != [] && record[|record| - 1].report.funding.Some? then record[|record| - 1].report.funding else f
  }

  /** The event was a tick that could resolve amounts. */
  predicate Resolves(r: Served) { r.record != [] && r.record[|r.record| - 1].report.funding.Some? }

  /** The amounts event handlers go by are those the latest tick that resolved any has resolved, and the earlier
      ones if none has. */
  lemma {:induction false} FundingIsTheLatest(base: Option<ResolvedFunding>, served: seq<Served>, i: int)
    requires -1 <= i < |served| && forall k :: i < k < |served| ==> !Resolves(served[k])
    requires i >= 0 ==> Resolves(served[i])
    ensures FundingAfter(base, served)
         == if i >= 0 then served[i].record[|served[i].record| - 1].report.funding else base
  {
    if 0 <= i < |served| - 1 || (i < 0 && served != []) {
      FundingIsTheLatest(base, served[..|served| - 1], i);
    }
  }

  /** Event `i` was served as it should be, on the slots that the events before it left at `s` from `t` on. */
  ghost predicate ServedInTurn(events: seq<Event>, served: seq<Served>, i: nat,
                               f: Option<ResolvedFunding>, s: SlotSet, t: nat, lim: Limits)
    requires i < |events| && i < |served|
  {
    && EventServed(events[i], served[i], FundingAfter(f, served[..i]), lim)
    && Ran(s, t, MadeOf(served[..i]), served[i].slots, served[i].at, lim)
  }

  ghost predicate AllServed(events: seq<Event>, served: seq<Served>,
                            f: Option<ResolvedFunding>, s: SlotSet, t: nat, lim: Limits)
  {
    |served| == |events| && forall i :: 0 <= i < |events| ==> ServedInTurn(events, served, i, f, s, t, lim)
  }

  lemma {:induction false} ServedOneMore(events: seq<Event>, n: nat, served: seq<Served>, r: Served,
                                         f: Option<ResolvedFunding>, s: SlotSet, t: nat, lim: Limits)
    requires n < |events| && AllServed(events[..n], served, f, s, t, lim)
    requires EventServed(events[n], r, FundingAfter(f, served), lim)
    requires Ran(s, t, MadeOf(served), r.slots, r.at, lim)
    ensures AllServed(events[..n + 1], served + [r], f, s, t, lim)
    ensures TicksOf(served + [r]) == TicksOf(served) + r.record
    ensures MadeOf(served + [r]) == MadeOf(served) + r.made
    ensures FundingAfter(f, served + [r]) == FundingNext(FundingAfter(f, served), r.record)
  {
    var more, upTo := served + [r], events[..n + 1];
    assert more[..n] == served;
    hide EventServed, Ran, FundingNext, FundingAfter, MadeOf, TicksOf;
    forall i | 0 <= i < n + 1 ensures ServedInTurn(upTo, more, i, f, s, t, lim) {
      if i < n {
        assert ServedInTurn(events[..n], served, i, f, s, t, lim);
        assert more[..i] == served[..i] && more[i] == served[i];
      }
    }
  }

  /** What the readable ticks among the events saw, in their order. */
  function ReadableTicks(events: seq<Event>): seq<Reads> {
    if events == [] then []
    else
      var last := events[|events| - 1];
      ReadableTicks(events[..|events| - 1])
      + if last.TickDue? && last.seen.channels.Some? then [last.seen] else []
  }

  lemma {:induction false} ServedBefore(events: seq<Event>, served: seq<Served>, n: nat,
                                        f: Option<ResolvedFunding>, s: SlotSet, t: nat, lim: Limits)
    requires AllServed(events, served, f, s, t, lim) && n <= |events|
    ensures AllServed(events[..n], served[..n], f, s, t, lim)
  {
    hide EventServed, Ran, FundingAfter, MadeOf;
    var upTo, done := events[..n], served[..n];
    forall i | 0 <= i < n ensures ServedInTurn(upTo, done, i, f, s, t, lim) {
      assert ServedInTurn(events, served, i, f, s, t, lim);
      assert done[..i] == served[..i];
    }
  }

  /** Every tick that could read the channels is on the record, in order, and nothing else is. */
  lemma {:induction false} RecordIsComplete(events: seq<Event>, served: seq<Served>,
                                            f: Option<ResolvedFunding>, s: SlotSet, t: nat, lim: Limits)
    requires AllServed(events, served, f, s, t, lim)
    ensures |TicksOf(served)| == |ReadableTicks(events)|
    ensures forall k :: 0 <= k < |TicksOf(served)| ==> TicksOf(served)[k].seen == ReadableTicks(events)[k]
  {
    hide Ran, InOrder, AllAttempts, AnswersWith, FundingAfter, MadeOf;
    if events != [] {
      var n := |events| - 1;
      assert ServedInTurn(events, served, n, f, s, t, lim);
      ServedBefore(events, served, n, f, s, t, lim);
      hide AllServed;
      RecordIsComplete(events[..n], served[..n], f, s, t, lim);
    }
  }

  /** The record of the peers' connectivity after the ticks. */
  ghost function SightingsOf(base: seq<Sighting>, ticks: seq<TickRecord>): seq<Sighting> {
    if ticks == [] then base
    else
      var last := ticks[|ticks| - 1];
      SightingsOf(base, ticks[..|ticks| - 1])
      + if last.seen.channels.Some? then Sightings(last.seen, last.report) else []
  }

  ghost predicate FaithfulAt(cfg: Config, start: nat, base: seq<Sighting>, ticks: seq<TickRecord>, k: nat)
    requires k < |ticks|
  {
    ticks[k].seen.channels.Some?
    && TickOutcome(cfg, start, ticks[k].seen.channels.value, StreakAfter(SightingsOf(base, ticks[..k + 1])),
                   ticks[k].seen, ticks[k].report)
  }

  /** Every recorded tick did what a tick does, with the streaks its predecessors and itself add up to. */
  ghost predicate Faithful(cfg: Config, start: nat, base: seq<Sighting>, ticks: seq<TickRecord>)
  {
    forall k :: 0 <= k < |ticks| ==> FaithfulAt(cfg, start, base, ticks, k)
  }

  ghost predicate InTime(ticks: seq<TickRecord>, from: nat, to: nat) {
    && (forall k :: 0 <= k < |ticks| ==> from <= ticks[k].report.phaseAt <= to)
    && (forall j, k :: 0 <= j < k < |ticks| ==> ticks[j].report.phaseAt <= ticks[k].report.phaseAt)
  }

  /** Every recorded tick worked with the amounts resolved from the economics it read. */
  ghost predicate ResolvedAsRead(cfg: Config, ticks: seq<TickRecord>)
    requires ValidConfig(cfg)
  {
    forall k :: 0 <= k < |ticks| ==> ticks[k].report.funding == Funding(cfg, ticks[k].seen)
  }

  lemma NothingServed(events: seq<Event>, f: Option<ResolvedFunding>, s: SlotSet, t: nat, lim: Limits)
    ensures AllServed(events[..0], [], f, s, t, lim) && MadeOf([]) == [] && TicksOf([]) == []
    ensures FundingAfter(f, []) == f
  {}

  lemma NoTicks(cfg: Config, start: nat, base: seq<Sighting>, now: nat)
    ensures Faithful(cfg, start, base, []) && SightingsOf(base, []) == base && InTime([], now, now)
  {}

  lemma {:induction false} FaithfulMore(cfg: Config, start: nat, base: seq<Sighting>,
                                        ticks: seq<TickRecord>, last: TickRecord)
    requires Faithful(cfg, start, base, ticks) && last.seen.channels.Some?
    requires TickOutcome(cfg, start, last.seen.channels.value,
               StreakAfter(SightingsOf(base, ticks) + Sightings(last.seen, last.report)),
                         last.seen, last.report)
    ensures Faithful(cfg, start, base, ticks + [last])
    ensures SightingsOf(base, ticks + [last]) == SightingsOf(base, ticks) + Sightings(last.seen, last.report)
  {
    hide TickOutcome, StreakAfter, Sightings;
    var more := ticks + [last];
    assert more[..|ticks|] == ticks;
    forall k | 0 <= k < |more| ensures FaithfulAt(cfg, start, base, more, k) {
      if k < |ticks| {
        assert FaithfulAt(cfg, start, base, ticks, k);
        assert more[..k + 1] == ticks[..k + 1];
      } else {
        assert more[..k + 1] == more;
      }
    }
  }

  lemma {:induction false} TickAdded(cfg: Config, start: nat, base: seq<Sighting>, ticks: seq<TickRecord>,
                                     record: seq<TickRecord>, from: nat, mid: nat, to: nat)
    requires Faithful(cfg, start, base, ticks) && InTime(ticks, from, mid) && from <= mid <= to && |record| <= 1
    requires record != [] ==>
               && record[0].seen.channels.Some? && mid <= record[0].report.phaseAt <= to
               && TickOutcome(cfg, start, record[0].seen.channels.value,
                              StreakAfter(SightingsOf(base, ticks) + Sightings(record[0].seen, record[0].report)),
                              record[0].seen, record[0].report)
    ensures Faithful(cfg, start, base, ticks + record) && InTime(ticks + record, from, to)
    ensures SightingsOf(base, ticks + record)
         == SightingsOf(base, ticks) + if record != [] then Sightings(record[0].seen, record[0].report) else []
  {
    hide TickOutcome, StreakAfter, Sightings, SightingsOf, Faithful;
    if record == [] {
      assert ticks + record == ticks;
    } else {
      assert record == [record[0]];
      FaithfulMore(cfg, start, base, ticks, record[0]);
    }
  }

  lemma PhaseAfterStart(s: SlotSet, t: nat, r: Report, lim: Limits)
    requires InOrder(s, t, r, lim)
    ensures t <= r.phaseAt
  {
    RanAdvances(s, t, [], r.slots, r.at, lim);
    hide Ran;
  }

  lemma NoRedirects(cfg: Config, start: nat, channels: seq<Channel>, streak: map<Address, nat>, seen: Reads, r: Report)
    requires TickOutcome(cfg, start, channels, streak, seen, r)
    requires forall addr :: addr in seen.reread ==> !seen.reread[addr].status.Open?
    ensures RedirectsClear(r)
  {
    hide FundPart, ClosePart, ReclaimPart, FinalizePart, Spent, Live;
    if r.open.Some? {
      var run, f := r.open.value, r.funding.value;
      var found := Reread(run.addrs, seen.reread);
      OpenPassConserves(run.addrs, found, run.answers, f, BudgetAfterTopUps(seen, r));
      forall i | 0 <= i < |run.result.attempts| ensures run.result.attempts[i].kind == OpenTx {
        assert ForOneOf(run.result.attempts[i], run.addrs, found, f);
        var m :| 0 <= m < |run.addrs| && OpensOrTopsUp(run.result.attempts[i], run.addrs[m], found[m], f);
        assert found[m].Some? ==> !found[m].value.status.Open?;
      }
    }
  }

  /** The sighting says what the tick has read: a destination is live exactly if it read an open channel to it, and
      disconnected exactly if it knew the peers and that one to be down. */
  ghost predicate Sees(sighting: Sighting, seen: Reads)
    requires seen.channels.Some?
  {
    && (forall dest :: dest in sighting.live <==>
          exists c :: c in seen.channels.value && c.status.Open? && c.destination == dest)
    && (forall dest :: dest in sighting.disconnected <==>
          seen.peers.Some? && dest in seen.peers.value.downAtClosing)
  }

  lemma SightingSees(seen: Reads, r: Report)
    requires seen.channels.Some?
    ensures |Sightings(seen, r)| == if r.close.Some? then 1 else 0
    ensures r.close.Some? ==> Sees(Sightings(seen, r)[0], seen)
  {
    forall dest
      ensures dest in Destinations(Opened(seen.channels.value)) <==>
              exists c :: c in seen.channels.value && c.status.Open? && c.destination == dest
    {
      DestinationsAre(seen.channels.value, dest);
    }
  }

  lemma {:induction false} SightingsStay(base: seq<Sighting>, ticks: seq<TickRecord>, j: nat)
    requires j <= |ticks|
    ensures SightingsOf(base, ticks[..j]) <= SightingsOf(base, ticks)
    decreases |ticks|
  {
    if j < |ticks| {
      hide Sightings;
      SightingsStay(base, ticks[..|ticks| - 1], j);
      assert ticks[..|ticks| - 1][..j] == ticks[..j];
    } else {
      assert ticks[..j] == ticks;
    }
  }

  /** Each tick whose close pass ran has added what it has read to the record of the peers' connectivity, behind what
      the ticks before it had added. */
  lemma {:induction false} TickAddsASighting(base: seq<Sighting>, ticks: seq<TickRecord>, j: nat)
    requires j < |ticks| && ticks[j].seen.channels.Some? && ticks[j].report.close.Some?
    ensures var i := |SightingsOf(base, ticks[..j])|;
            |base| <= i < |SightingsOf(base, ticks)| && Sees(SightingsOf(base, ticks)[i], ticks[j].seen)
  {
    hide Sees, Sightings;
    var upTo := ticks[..j + 1];
    assert upTo[..j] == ticks[..j] && upTo[j] == ticks[j];
    SightingSees(ticks[j].seen, ticks[j].report);
    SightingsStay(base, ticks, j + 1);
    SightingsFromBase(base, ticks[..j]);
  }

  lemma {:induction false} SightingsFromBase(base: seq<Sighting>, ticks: seq<TickRecord>)
    ensures base <= SightingsOf(base, ticks)
  {
    if ticks != [] {
      SightingsFromBase(base, ticks[..|ticks| - 1]);
    }
  }

  /** Nothing else has added to it. */
  lemma {:induction false} SightingIsATick(base: seq<Sighting>, ticks: seq<TickRecord>, i: nat) returns (j: nat)
    requires |base| <= i < |SightingsOf(base, ticks)|
    ensures j < |ticks| && ticks[j].seen.channels.Some? && ticks[j].report.close.Some?
    ensures |SightingsOf(base, ticks[..j])| == i
  {
    var n := |ticks| - 1;
    if i < |SightingsOf(base, ticks[..n])| {
      j := SightingIsATick(base, ticks[..n], i);
      assert ticks[..n][..j] == ticks[..j] && ticks[..n][j] == ticks[j];
    } else {
      j := n;
    }
  }

  lemma DestinationsAre(channels: seq<Channel>, dest: Address)
    ensures dest in Destinations(Opened(channels)) <==>
            exists c :: c in channels && c.status.Open? && c.destination == dest
  {
    assert forall c: Channel :: IS_OPEN(c) <==> c.status.Open?;
    if c :| c in channels && c.status.Open? && c.destination == dest {
      assert IS_OPEN(c) && c in Opened(channels);
    }
  }

  /** Over whole runs: while connected peers are shielded, a tick asks to close only channels whose peer
      was seen disconnected in each of the last `debounceTicks` ticks whose close pass ran. */
  lemma {:induction false} DebouncedOverRuns(cfg: Config, start: nat, base: seq<Sighting>,
                                             ticks: seq<TickRecord>, k: nat, i: nat)
    requires Faithful(cfg, start, base, ticks)
    requires k < |ticks| && ticks[k].report.phase.ShieldingConnected? && i < |CloseAttempts(ticks[k].report)|
    ensures CloseAttempts(ticks[k].report)[i].key.Chan?
    ensures ticks[k].seen.channels.Some?
    ensures DownLately(ticks[k].seen.channels.value, CloseAttempts(ticks[k].report)[i].key.id,
              SightingsOf(base, ticks[..k + 1]),
                       Max(cfg.debounceTicks, 1))
  {
    hide TickOutcome, StreakAfter, SightingsOf, DownLately;
    assert FaithfulAt(cfg, start, base, ticks, k);
    ShieldedClosesAreDebounced(cfg, start, ticks[k].seen.channels.value, SightingsOf(base, ticks[..k + 1]),
                               ticks[k].seen, ticks[k].report, i);
  }

  /** Over whole runs the startup guard only relaxes: once a tick may close, no later tick is observing,
      and once the guard has expired it stays expired. */
  lemma {:induction false} GuardOnlyRelaxes(cfg: Config, start: nat, base: seq<Sighting>,
                                            ticks: seq<TickRecord>, from: nat, to: nat, j: nat, k: nat)
    requires Faithful(cfg, start, base, ticks) && InTime(ticks, from, to) && j < k < |ticks|
    ensures ticks[k].report.phase.Observing? ==> ticks[j].report.phase.Observing?
    ensures ticks[j].report.phase.Expired? ==> ticks[k].report.phase.Expired?
    ensures ticks[k].report.phase.Observing? ==>
              CloseAttempts(ticks[j].report) == [] && ReclaimAttempts(ticks[j].report) == []
  {
    hide StreakAfter, SightingsOf, TickOutcome, PhaseAt;
    assert FaithfulAt(cfg, start, base, ticks, j) && FaithfulAt(cfg, start, base, ticks, k);
    var streakJ, streakK := StreakAfter(SightingsOf(base, ticks[..j + 1])),
        StreakAfter(SightingsOf(base, ticks[..k + 1]));
    PhaseOf(cfg, start, ticks[j].seen.channels.value, streakJ, ticks[j].seen, ticks[j].report);
    PhaseOf(cfg, start, ticks[k].seen.channels.value, streakK, ticks[k].seen, ticks[k].report);
    PhaseNeverGoesBack(ticks[j].report.phaseAt - start, ticks[k].report.phaseAt - start, cfg.observation, cfg.grace);
    StartupGuard(cfg, start, ticks[j].seen.channels.value, streakJ, ticks[j].seen, ticks[j].report);
  }

  lemma {:induction false} PhaseOf(cfg: Config, start: nat, channels: seq<Channel>,
                                   streak: map<Address, nat>, seen: Reads, r: Report)
    requires TickOutcome(cfg, start, channels, streak, seen, r)
    ensures start <= r.phaseAt && r.phase == PhaseAt(r.phaseAt - start, cfg.observation, cfg.grace)
  {
    hide FundPart, ReclaimPart, FinalizePart, OpenPart, CloseOutcome, PhaseAt;
  }

  lemma OpenedDistinct(channels: seq<Channel>)
    requires Distinct(channels)
    ensures Distinct(Opened(channels))
  {
    FilterKeepsDistinct(channels, IS_OPEN);
  }

  lemma RanAdvances(s: SlotSet, t: nat, attempts: seq<Attempt>, s': SlotSet, t': nat, lim: Limits)
    requires Ran(s, t, attempts, s', t', lim)
    ensures t <= t'
  {}

  class Strategy {
    const cfg: Config
    const start: nat
    const opens: ActionLeases<Key>
    const funds: ActionLeases<Key>
    const closes: ActionLeases<Key>
    const finals: ActionLeases<Key>
    var now: nat
    var tasks: seq<Task>
    /** Every chain write asked for so far. */
    var log: seq<Attempt>
    var streak: map<Address, nat>
    var lastFunding: Option<ResolvedFunding>
    var state: Severity
    /** What each tick whose close pass ran has seen of the peers' connectivity. */
    ghost var sightings: seq<Sighting>

    constructor (cfg: Config, now: nat)
      requires ValidConfig(cfg)
      ensures Valid() && Exclusive(View(), this.now)
      ensures this.cfg == cfg && this.start == this.now == now && log == [] && sightings == []
      ensures fresh(opens) && fresh(funds) && fresh(closes) && fresh(finals)
    {
      this.cfg, start, this.now := cfg, now, now;
      opens := new ActionLeases<Key>();
      funds := new ActionLeases<Key>();
      closes := new ActionLeases<Key>();
      finals := new ActionLeases<Key>();
      tasks, log, streak, lastFunding, state := [], [], map[], None, Running;
      sightings := [];
      new;
      assert HeldKeys(View().open, now) == {} && HeldKeys(View().fund, now) == {};
      assert HeldKeys(View().close, now) == {} && HeldKeys(View().finalize, now) == {};
    }

    /** The slot tables as a value. */
    function View(): SlotSet
      reads opens, funds, closes, finals
    {
      SlotSet(opens.Snapshot(), funds.Snapshot(), closes.Snapshot(), finals.Snapshot())
    }

    /** The concurrency caps hold, and the disconnection streaks are what the sightings add up to. */
    ghost predicate Valid()
      reads this, opens, funds, closes, finals
    {
      && opens != funds && opens != closes && opens != finals && funds != closes && funds != finals && closes != finals
      && ValidConfig(cfg) && start <= now
      && CapsHold(View(), now, cfg.lim)
      && streak == StreakAfter(sightings)
    }

    function LeasesOf(kind: Kind): ActionLeases<Key> {
      match kind
      case OpenTx => opens
      case FundTx => funds
      case CloseTx => closes
      case FinalizeTx => finals
    }

    function TotalInFlight(): (n: nat)
      reads opens, funds, closes, finals
      ensures n == InFlight(View(), now)
      reads `now
    {
      opens.HeldCount(now) + funds.HeldCount(now) + closes.HeldCount(now) + finals.HeldCount(now)
    }

    /** Open channels and openings in flight. */
    function CountOpen(channels: seq<Channel>): (n: nat)
      reads `now, opens, funds, closes, finals
      ensures n == |Opened(channels)| + Held(View().open, now)
    {
      |Opened(channels)| + opens.HeldCount(now)
    }

    /** The environment's turn: time passes, and spawned transactions report back in any order. */
    method Interleave()
      requires Valid()
      modifies `now, `tasks, opens, funds, closes, finals
      ensures Valid() && Calmer(old(View()), old(now), View(), now)
    {
      hide CapsHold, Shrunk, StreakAfter;
      var later: nat :| now <= later;
      now := later;
      SameSlotsLater(View(), old(now), now);
      CalmerKeeps(View(), old(now), View(), now, cfg.lim);
      while tasks != []
        invariant Valid() && old(now) <= now && Calmer(old(View()), old(now), View(), now)
        decreases |tasks|
      {
        var i: int := *;
        if !(0 <= i < |tasks|) {
          break;
        }
        ghost var s1 := View();
        ReportBack(i);
        CalmerTransitive(old(View()), old(now), s1, now, View(), now);
      }
    }

    /** Task `i` is done, successfully or not, and gives back the slot if it still holds it. */
    method ReportBack(i: nat)
      requires Valid() && i < |tasks|
      modifies `tasks, opens, funds, closes, finals
      ensures Valid() && Calmer(old(View()), now, View(), now)
      ensures tasks == old(tasks[..i] + tasks[i + 1..])
      ensures var t := old(tasks[i]);
              View() == WithTable(old(View()), t.kind, ReleasedBy(TableOf(old(View()), t.kind), t.key, t.holder))
    {
      var t := tasks[i];
      tasks := tasks[..i] + tasks[i + 1..];
      var leases := LeasesOf(t.kind);
      leases.ReleaseOwned(t.key, t.holder);
      CalmerKeeps(old(View()), now, View(), now, cfg.lim);
    }

    /** Takes the slot for `key`, charges it against the shared budget, and spawns the transaction. */
    method SpawnLeased(kind: Kind, key: Key, amount: nat) returns (ok: bool)
      requires Valid() && Room(View(), kind, now, cfg.lim)
      modifies `tasks, `log, opens, funds, closes, finals
      ensures Valid() && (View(), ok) == Spawned(old(View()), kind, key, now, cfg.lim)
      ensures log == old(log) + [Attempt(kind, key, amount, ok)]
      ensures tasks == old(tasks) + if ok then [Task(kind, key, TableOf(old(View()), kind).nextHolder)] else []
    {
      hide CapsHold, InFlight, StreakAfter, HeldKeys;
      ghost var s := View();
      SpawnKeepsCaps(s, kind, key, now, cfg.lim);
      var leases := LeasesOf(kind);
      var granted := leases.Acquire(key, now, cfg.lim.leaseTimeout);
      ok := false;
      assert View() == WithTable(s, kind, Acquired(TableOf(s, kind), key, now, cfg.lim.leaseTimeout));
      if granted.Some? {
        var inFlight := TotalInFlight();
        if inFlight > cfg.lim.maxActions {
          leases.ReleaseOwned(key, granted.value);
        } else {
          tasks := tasks + [Task(kind, key, granted.value)];
          ok := true;
        }
      }
      log := log + [Attempt(kind, key, amount, ok)];
    }

    /** The environment's turn inside a pass that has dispatched `before` since the slots were `s` at `t`. */
    method Yield(ghost s: SlotSet, ghost t: nat, ghost before: seq<Attempt>)
      requires Valid() && Ran(s, t, before, View(), now, cfg.lim)
      modifies `now, `tasks, opens, funds, closes, finals
      ensures Valid() && old(now) <= now && Ran(s, t, before, View(), now, cfg.lim)
      ensures Exclusive(old(View()), old(now)) ==> Exclusive(View(), now)
    {
      hide Calmer, Ran, Exclusive, CapsHold, StreakAfter;
      ghost var s1, t1 := View(), now;
      Interleave();
      CalmRan(s1, t1, View(), now, cfg.lim);
      RanAdvances(s1, t1, [], View(), now, cfg.lim);
      CalmerKeeps(s1, t1, View(), now, cfg.lim);
      RanThen(s, t, before, s1, t1, [], View(), now, cfg.lim);
      assert before + [] == before;
    }

    /** One dispatch of such a pass, after the environment's turn. */
    method Dispatch(kind: Kind, key: Key, amount: nat, ghost s: SlotSet, ghost t: nat, ghost before: seq<Attempt>)
      returns (ok: bool, ghost met: SlotSet)
      requires Valid() && Room(View(), kind, now, cfg.lim) && Ran(s, t, before, View(), now, cfg.lim)
      modifies `now, `tasks, `log, opens, funds, closes, finals
      ensures Valid() && log == old(log) + [Attempt(kind, key, amount, ok)]
      ensures Ran(s, t, before + [Attempt(kind, key, amount, ok)], View(), now, cfg.lim)
      ensures Calmer(old(View()), old(now), met, now) && (View(), ok) == Spawned(met, kind, key, now, cfg.lim)
      ensures Ran(s, t, before, met, now, cfg.lim)
      ensures Exclusive(old(View()), old(now)) ==> Exclusive(met, now)
      ensures Exclusive(old(View()), old(now)) && NoClash(old(View()), kind, key, old(now)) ==> Exclusive(View(), now)
    {
      hide Calmer, Ran, Exclusive, Room, NoClash, Spawned, CapsHold, StreakAfter;
      ghost var s0, t0 := View(), now;
      Interleave();
      ghost var s1 := View();
      CalmKeepsRoom(s0, t0, s1, now, kind, key, cfg.lim);
      CalmerKeeps(s0, t0, s1, now, cfg.lim);
      CalmRan(s0, t0, s1, now, cfg.lim);
      RanThen(s, t, before, s0, t0, [], s1, now, cfg.lim);
      assert before + [] == before;
      met := s1;
      ok := SpawnLeased(kind, key, amount);
      SpawnRan(s1, kind, key, amount, now, cfg.lim);
      RanThen(s, t, before, s1, now, [Attempt(kind, key, amount, ok)], View(), now, cfg.lim);
      if Exclusive(s0, t0) && NoClash(s0, kind, key, t0) {
        SpawnKeepsExclusive(s1, kind, key, now, cfg.lim);
      }
    }

    // -------------------------------------------------------------------------------------------
    // Fund pass
    // -------------------------------------------------------------------------------------------

    method FundPass(channels: seq<Channel>, openCount: nat, f: ResolvedFunding, b: Budget, seen: Reads)
      returns (run: FundRun)
      requires Valid()
      modifies `now, `tasks, `log, opens, funds, closes, finals
      ensures Valid() && run.slots == old(View()) && run.at == old(now)
      ensures FundOutcome(cfg, Opened(channels), openCount, f, b, seen, run)
      ensures log == old(log) + run.result.attempts
      ensures Ran(old(View()), old(now), run.result.attempts, View(), now, cfg.lim)
      ensures Exclusive(old(View()), old(now)) ==> Exclusive(View(), now)
    {
      hide FundFold, FundCandidates, RequiredSafeBalance, Ran, Exclusive, CapsHold, NotClosing, StreakAfter;
      var slots, at := View(), now;
      var candidates := FundCandidates(cfg, Opened(channels), slots, at, f, seen);
      var stranded := b.balance < RequiredSafeBalance(f, |candidates|, SatSub(cfg.minOpen, openCount));
      if f.topup == 0 || f.face == 0 {
        CalmRan(slots, at, slots, at, cfg.lim);
        return FundRun(slots, at, candidates, stranded, [], FundState([], {}, b.spendable, false, false));
      }
      CandidatesNotClosing(cfg, channels, slots, at, f, seen);
      var st, answers := FundLoop(candidates, stranded, f, b.spendable);
      return FundRun(slots, at, candidates, stranded, answers, st);
    }

    method FundLoop(cs: seq<Channel>, stranded: bool, f: ResolvedFunding, budget: nat)
      returns (st: FundState, answers: seq<bool>)
      requires Valid() && f.face > 0 && NotClosing(cs, View(), now)
      modifies `now, `tasks, `log, opens, funds, closes, finals
      ensures Valid() && |answers| == |cs| && st == FundFold(cs, answers, f, stranded, budget)
      ensures log == old(log) + st.attempts
      ensures Ran(old(View()), old(now), st.attempts, View(), now, cfg.lim)
      ensures Exclusive(old(View()), old(now)) ==> Exclusive(View(), now)
    {
      hide FundFold, FundAmount, Ran, Exclusive, CapsHold, StreakAfter, Live, Held, NoClash, Room;
      CalmRan(View(), now, View(), now, cfg.lim);
      FundBegins(f, stranded, budget);
      var safeRemaining: nat, deferred: set<ChannelId>, short, stopped := budget, {}, false, false;
      var attempts: seq<Attempt> := [];
      answers := [];
      var i := 0;
      while i < |cs|
        invariant 0 <= i <= |cs| && |answers| == i && Valid() && !stopped
        invariant FundFold(cs[..i], answers, f, stranded, budget)
               == FundState(attempts, deferred, safeRemaining, short, false)
        invariant log == old(log) + attempts && AllOfKind(attempts, FundTx)
        invariant Ran(old(View()), old(now), attempts, View(), now, cfg.lim)
        invariant Exclusive(old(View()), old(now)) ==> Exclusive(View(), now)
      {
        var c, accepted := cs[i], false;
        if stranded && c.balance < f.face {
          deferred := deferred + {c.id};
        } else {
          var amount := FundAmount(safeRemaining, f);
          if amount == 0 {
            FundNext(cs, answers, false, i, f, stranded, budget);
            short, stopped := true, true;
            break;
          }
          if amount < f.topup {
            short := true;
          }
          FundingDoesNotClash(old(View()), old(now), attempts, View(), now, cfg.lim, c.id);
          ghost var met;
          accepted, met := Dispatch(FundTx, Chan(c.id), amount, old(View()), old(now), attempts);
          attempts := attempts + [Attempt(FundTx, Chan(c.id), amount, accepted)];
          if accepted {
            safeRemaining := safeRemaining - amount;
          }
        }
        FundNext(cs, answers, accepted, i, f, stranded, budget);
        answers := answers + [accepted];
        i := i + 1;
      }
      st := FundState(attempts, deferred, safeRemaining, short, stopped);
      if stopped {
        ghost var m := i + 1;
        answers := answers + seq(|cs| - i, _ => false);
        assert answers[..m] == answers[..i] + [false];
        FundStops(cs, answers, m, f, stranded, budget);
      } else {
        assert cs[..i] == cs;
      }
    }

    // -------------------------------------------------------------------------------------------
    // Close pass
    // -------------------------------------------------------------------------------------------

    /** Advances the streak of every open channel's disconnected peer and resets the others; returns the
        channels whose peer has been disconnected for the whole debounce window. */
    method ObserveConnectivity(open: seq<Channel>, down: set<Address>) returns (disconnected: set<ChannelId>)
      requires Valid() && Distinct(open)
      modifies `streak, `sightings
      ensures Valid() && sightings == old(sightings) + [Sighting(Destinations(open), down)]
      ensures disconnected == Retirable(open, down, streak, cfg.debounceTicks)
    {
      hide CapsHold, Retirable, Updated, StreakAfter, Distinct;
      var debounce := Max(cfg.debounceTicks, 1);
      ghost var seen := Sighting(Destinations(open), down);
      ghost var target := NextStreak(streak, seen);
      var live := Destinations(open);
      streak := map dest | dest in streak && dest in live :: streak[dest];
      UpdatedStart(old(streak), target, open);
      disconnected := {};
      NothingRetirable(open, down, target, cfg.debounceTicks);
      for i := 0 to |open|
        invariant sightings == old(sightings) && streak.Keys <= live
        invariant Updated(streak, old(streak), target, open, i)
        invariant disconnected == Retirable(open[..i], down, target, cfg.debounceTicks)
      {
        var c := open[i];
        TargetOf(streak, old(streak), open, down, i);
        RetirableNext(open, down, target, cfg.debounceTicks, i);
        UpdatedNext(streak, old(streak), target, open, i);
        if c.destination in down {
          var n := StreakOf(streak, c.destination) + 1;
          streak := streak[c.destination := n];
          if n >= debounce {
            disconnected := disconnected + {c.id};
          }
        } else {
          streak := streak - {c.destination};
        }
      }
      UpdatedAll(streak, old(streak), target, open);
      assert open[..|open|] == open;
      sightings := sightings + [seen];
      StreakSnoc(old(sightings), seen);
    }

    /** The disconnected channels the selector did not rank, in no particular order. */
    method Unranked(disconnected: set<ChannelId>, ranked: seq<ChannelId>) returns (ids: seq<ChannelId>)
      ensures EachOnce(ids) && forall id :: id in ids <==> id in disconnected && id !in ranked
    {
      var rest := set id | id in disconnected && id !in ranked;
      ids := [];
      while rest != {}
        invariant EachOnce(ids) && (forall id :: id in ids ==> id !in rest)
        invariant forall id :: id in ids || id in rest <==> id in disconnected && id !in ranked
        decreases rest
      {
        var id :| id in rest;
        ids, rest := ids + [id], rest - {id};
      }
    }

    /** One listed channel: passed over when unknown, busy or shielded, otherwise asked to close. */
    method ConsiderClosing(id: ChannelId, g: CloseGuards, ghost s: SlotSet, ghost t: nat, ghost before: seq<Attempt>)
      returns (answer: CloseAnswer, made: seq<Attempt>)
      requires Valid() && Ran(s, t, before, View(), now, cfg.lim) && AllOfKind(before, CloseTx)
      requires Held(s.close, t) + AcceptedCount(before) < cfg.lim.maxClosing
      modifies `now, `tasks, `log, opens, funds, closes, finals
      ensures Valid() && log == old(log) + made && Ran(s, t, before + made, View(), now, cfg.lim)
      ensures made == if id !in g.known || answer.busy || (g.phase.ShieldingConnected? && id !in g.disconnected) then []
                      else [Attempt(CloseTx, Chan(id), 0, answer.accepted)]
      ensures made == [] ==> !answer.accepted
      ensures answer.busy ==> BusyId(id, {FundTx, CloseTx}, s, t, before)
      ensures Exclusive(old(View()), old(now)) ==> Exclusive(View(), now)
    {
      hide Ran, Exclusive, CapsHold, StreakAfter, HeldKeys, NoClash, Room, BusyId, AcceptedCount;
      Yield(s, t, before);
      answer, made := CloseAnswer(false, false), [];
      assert before + [] == before;
      if id in g.known {
        if closes.IsHeld(Chan(id), now) || funds.IsHeld(Chan(id), now) {
          answer := CloseAnswer(true, false);
          BusyHasCause(s, t, before, View(), now, cfg.lim, id, {FundTx, CloseTx},
                       if closes.IsHeld(Chan(id), now) then CloseTx else FundTx);
        } else if !(g.phase == ShieldingConnected && id !in g.disconnected) {
          ClosingHasRoom(s, t, before, View(), now, cfg.lim);
          FreeOfClash(View(), now, id);
          var accepted, met := Dispatch(CloseTx, Chan(id), 0, s, t, before);
          answer := CloseAnswer(false, accepted);
          made := [Attempt(CloseTx, Chan(id), 0, accepted)];
        }
      }
    }

    method CloseLoop(ids: seq<ChannelId>, g: CloseGuards) returns (st: CloseState, answers: seq<CloseAnswer>)
      requires Valid() && g.maxConcurrent == cfg.lim.maxClosing
      modifies `now, `tasks, `log, opens, funds, closes, finals
      ensures Valid() && |answers| == |ids| && st == CloseFold(ids, answers, g, Held(old(View()).close, old(now)))
      ensures BusyForCause(answers, ids, {FundTx, CloseTx}, old(View()), old(now), st.attempts)
      ensures log == old(log) + st.attempts
      ensures Ran(old(View()), old(now), st.attempts, View(), now, cfg.lim)
      ensures Exclusive(old(View()), old(now)) ==> Exclusive(View(), now)
    {
      hide CloseFold, Ran, Exclusive, CapsHold, StreakAfter, HeldKeys, BusyForCause, BusyId, AcceptedCount;
      CalmRan(View(), now, View(), now, cfg.lim);
      var initial := closes.HeldCount(now);
      CloseBegins(ids, {FundTx, CloseTx}, View(), now, g, initial);
      var closeCount: nat, dispatched: nat, stopped := initial, 0, false;
      var attempts: seq<Attempt> := [];
      answers := [];
      var i := 0;
      while i < |ids|
        invariant 0 <= i <= |ids| && |answers| == i && Valid() && !stopped
        invariant CloseFold(ids[..i], answers, g, initial) == CloseState(attempts, closeCount, dispatched, false)
        invariant log == old(log) + attempts && AllOfKind(attempts, CloseTx)
        invariant closeCount == initial + AcceptedCount(attempts)
        invariant BusyForCause(answers, ids[..i], {FundTx, CloseTx}, old(View()), old(now), attempts)
        invariant Ran(old(View()), old(now), attempts, View(), now, cfg.lim)
        invariant Exclusive(old(View()), old(now)) ==> Exclusive(View(), now)
      {
        stopped := closeCount >= g.maxConcurrent || (g.perTickCap.Some? && dispatched >= g.perTickCap.value)
                   || SatSub(g.openCount, closeCount) <= g.minOpen;
        if stopped {
          CloseNext(ids, answers, CloseAnswer(false, false), i, g, initial);
          break;
        }
        var answer, made := ConsiderClosing(ids[i], g, old(View()), old(now), attempts);
        CloseNext(ids, answers, answer, i, g, initial);
        BusyNext(answers, answer, ids, i, {FundTx, CloseTx}, old(View()), old(now), attempts);
        BusyStays(answers + [answer], ids[..i + 1], {FundTx, CloseTx}, old(View()), old(now), attempts, made);
        AcceptedMore(attempts, made, answer.accepted);
        attempts := attempts + made;
        if answer.accepted {
          closeCount, dispatched := closeCount + 1, dispatched + 1;
        }
        answers := answers + [answer];
        i := i + 1;
      }
      st := CloseState(attempts, closeCount, dispatched, stopped);
      if stopped {
        BusyPadded(answers, ids, {FundTx, CloseTx}, old(View()), old(now), attempts);
        ghost var walked := answers + [CloseAnswer(false, false)];
        answers := answers + seq(|ids| - i, _ => CloseAnswer(false, false));
        assert answers[..i + 1] == walked;
        CloseStops(ids, answers, i + 1, g, initial);
      } else {
        assert ids[..i] == ids;
      }
    }

    method ClosePass(channels: seq<Channel>, openCount: nat, seen: Reads) returns (run: CloseRun)
      requires Valid() && Distinct(Opened(channels)) && PhaseAt(now - start, cfg.observation, cfg.grace) != Observing
      modifies `now, `tasks, `log, `streak, `sightings, opens, funds, closes, finals
      ensures Valid() && run.slots == old(View()) && run.at == old(now)
      ensures CloseOutcome(cfg, start, Opened(channels), openCount, streak, seen, run)
      ensures run.guards.phase == PhaseAt(old(now) - start, cfg.observation, cfg.grace)
      ensures sightings == old(sightings) + [Sighting(Destinations(Opened(channels)), DownAtClosing(seen))]
      ensures log == old(log) + run.result.attempts
      ensures Ran(old(View()), old(now), run.result.attempts, View(), now, cfg.lim)
      ensures Exclusive(old(View()), old(now)) ==> Exclusive(View(), now)
    {
      hide CloseFold, Ran, Exclusive, CapsHold, StreakAfter, Distinct, BusyForCause, Retirable, PhaseAt, Filter;
      var slots, at, open := View(), now, Opened(channels);
      var phase := PhaseAt(now - start, cfg.observation, cfg.grace);
      var disconnected := ObserveConnectivity(open, DownAtClosing(seen));
      var g := CloseGuards(cfg.lim.maxClosing, seen.perTickCap, openCount, cfg.minOpen, phase,
                           KnownIds(open), disconnected);
      var unranked := Unranked(disconnected, seen.closesRanked);
      var st, answers := CloseLoop(seen.closesRanked + unranked, g);
      return CloseRun(slots, at, g, unranked, answers, st);
    }

    // -------------------------------------------------------------------------------------------
    // Consolidation
    // -------------------------------------------------------------------------------------------

    method ReclaimLoop(ids: seq<ChannelId>) returns (st: ReclaimState, answers: seq<bool>)
      requires Valid() && NotFunding(ids, View(), now)
      modifies `now, `tasks, `log, opens, funds, closes, finals
      ensures Valid() && |answers| == |ids|
      ensures st == ReclaimFold(ids, answers, Held(old(View()).close, old(now)), cfg.lim.maxClosing)
      ensures log == old(log) + st.attempts
      ensures Ran(old(View()), old(now), st.attempts, View(), now, cfg.lim)
      ensures Exclusive(old(View()), old(now)) ==> Exclusive(View(), now)
    {
      hide ReclaimFold, Ran, Exclusive, CapsHold, StreakAfter, HeldKeys, NoClash, Room, AcceptedCount, Live;
      CalmRan(View(), now, View(), now, cfg.lim);
      var initial := closes.HeldCount(now);
      ReclaimBegins(initial, cfg.lim.maxClosing);
      var closeCount: nat, stopped := initial, false;
      var attempts: seq<Attempt> := [];
      answers := [];
      var i := 0;
      while i < |ids|
        invariant 0 <= i <= |ids| && |answers| == i && Valid() && !stopped
        invariant ReclaimFold(ids[..i], answers, initial, cfg.lim.maxClosing)
               == ReclaimState(attempts, closeCount, false)
        invariant log == old(log) + attempts && AllOfKind(attempts, CloseTx)
        invariant closeCount == initial + AcceptedCount(attempts)
        invariant Ran(old(View()), old(now), attempts, View(), now, cfg.lim)
        invariant Exclusive(old(View()), old(now)) ==> Exclusive(View(), now)
      {
        if closeCount >= cfg.lim.maxClosing {
          ReclaimNext(ids, answers, false, i, initial, cfg.lim.maxClosing);
          stopped := true;
          break;
        }
        StaysFree(old(View()), old(now), attempts, View(), now, cfg.lim, FundTx, Chan(ids[i]));
        ClosingHasRoom(old(View()), old(now), attempts, View(), now, cfg.lim);
        FreeOfClash(View(), now, ids[i]);
        var accepted, met := Dispatch(CloseTx, Chan(ids[i]), 0, old(View()), old(now), attempts);
        AttemptSnoc(attempts, Attempt(CloseTx, Chan(ids[i]), 0, accepted));
        attempts := attempts + [Attempt(CloseTx, Chan(ids[i]), 0, accepted)];
        if accepted {
          closeCount := closeCount + 1;
        }
        ReclaimNext(ids, answers, accepted, i, initial, cfg.lim.maxClosing);
        answers := answers + [accepted];
        i := i + 1;
      }
      st := ReclaimState(attempts, closeCount, stopped);
      if stopped {
        ghost var walked := answers + [false];
        answers := answers + seq(|ids| - i, _ => false);
        assert answers[..i + 1] == walked;
        ReclaimStops(ids, answers, i + 1, initial, cfg.lim.maxClosing);
      } else {
        assert ids[..i] == ids;
      }
    }

    method TopUpLoop(cs: seq<Channel>, face: nat, budget: nat) returns (st: TopUpState, answers: seq<bool>)
      requires Valid() && NotClosing(cs, View(), now)
      modifies `now, `tasks, `log, opens, funds, closes, finals
      ensures Valid() && |answers| == |cs| && st == TopUpFold(cs, answers, face, budget)
      ensures log == old(log) + st.attempts
      ensures Ran(old(View()), old(now), st.attempts, View(), now, cfg.lim)
      ensures Exclusive(old(View()), old(now)) ==> Exclusive(View(), now)
    {
      hide TopUpFold, Ran, Exclusive, CapsHold, StreakAfter, Live, Held, NoClash, Room;
      CalmRan(View(), now, View(), now, cfg.lim);
      TopUpBegins(face, budget);
      var safeRemaining: nat, short, stopped := budget, false, false;
      var attempts: seq<Attempt> := [];
      answers := [];
      var i := 0;
      while i < |cs|
        invariant 0 <= i <= |cs| && |answers| == i && Valid() && !stopped
        invariant TopUpFold(cs[..i], answers, face, budget) == TopUpState(attempts, safeRemaining, short, false)
        invariant log == old(log) + attempts && AllOfKind(attempts, FundTx)
        invariant Ran(old(View()), old(now), attempts, View(), now, cfg.lim)
        invariant Exclusive(old(View()), old(now)) ==> Exclusive(View(), now)
      {
        var c, accepted := cs[i], false;
        var topup := Missing(c, face);
        if topup > 0 {
          if safeRemaining < topup {
            TopUpNext(cs, answers, false, i, face, budget);
            short, stopped := true, true;
            break;
          }
          FundingDoesNotClash(old(View()), old(now), attempts, View(), now, cfg.lim, c.id);
          ghost var met;
          accepted, met := Dispatch(FundTx, Chan(c.id), topup, old(View()), old(now), attempts);
          attempts := attempts + [Attempt(FundTx, Chan(c.id), topup, accepted)];
          if accepted {
            safeRemaining := safeRemaining - topup;
          }
        }
        TopUpNext(cs, answers, accepted, i, face, budget);
        answers := answers + [accepted];
        i := i + 1;
      }
      st := TopUpState(attempts, safeRemaining, short, stopped);
      if stopped {
        ghost var walked := answers + [false];
        answers := answers + seq(|cs| - i, _ => false);
        assert answers[..i + 1] == walked;
        TopUpStops(cs, answers, i + 1, face, budget);
      } else {
        assert cs[..i] == cs;
      }
    }

    /** Closures first, then top-ups of the survivors. The worklists are what the slots allow when each
        of the two halves begins. */
    method Consolidate(channels: seq<Channel>, deferred: set<ChannelId>, f: ResolvedFunding,
                       b: Budget, phase: StartupPhase, seen: Reads, budget: nat)
      returns (reclaim: ReclaimRun, topup: Option<TopUpRun>)
      requires Valid()
      modifies `now, `tasks, `log, opens, funds, closes, finals
      ensures Valid() && reclaim.slots == old(View()) && reclaim.at == old(now)
      ensures ReclaimOutcome(cfg, channels, deferred, f, b, phase, seen, reclaim)
      ensures topup.Some? <==> reclaim.underfunded != []
      ensures topup.Some? ==> TopUpOutcome(Opened(channels), deferred, reclaim.closes, f, budget, topup.value)
                              && Ran(old(View()), old(now), reclaim.result.attempts,
                                     topup.value.slots, topup.value.at, cfg.lim)
      ensures var made := reclaim.result.attempts + if topup.Some? then topup.value.result.attempts else [];
              log == old(log) + made && Ran(old(View()), old(now), made, View(), now, cfg.lim)
      ensures Exclusive(old(View()), old(now)) ==> Exclusive(View(), now)
    {
      hide ReclaimFold, TopUpFold, Ran, Exclusive, CapsHold, StreakAfter, Held, Live, Filter, Reclaiming, Survivors,
        NotClosing, Consolidation.ConsolidationCloses;
      var slots, at, open := View(), now, Opened(channels);
      var underfunded := Filter(open, IsFree(deferred, slots, at));
      var reclaiming := Reclaiming(channels, slots, at);
      var ids: seq<ChannelId> := [];
      if phase.Expired? {
        ids := Consolidation.ConsolidationCloses(Ranked(underfunded, seen.quality), b.balance, reclaiming, f.face);
        ClosesAreFree(open, deferred, slots, at, seen.quality, b.balance, reclaiming, f.face);
      }
      var st, answers := ReclaimLoop(ids);
      reclaim := ReclaimRun(slots, at, underfunded, reclaiming, ids, answers, st);
      topup := None;
      if underfunded != [] {
        Yield(old(View()), old(now), st.attempts);
        ghost var s1, t1 := View(), now;
        var midSlots, midAt := View(), now;
        var survivors := Survivors(open, deferred, ids, midSlots, midAt);
        SurvivorsNotClosing(channels, deferred, ids, midSlots, midAt);
        var st', answers' := TopUpLoop(survivors, f.face, budget);
        RanThen(old(View()), old(now), st.attempts, s1, t1, st'.attempts, View(), now, cfg.lim);
        topup := Some(TopUpRun(midSlots, midAt, survivors, answers', st'));
      } else {
        assert st.attempts + [] == st.attempts;
      }
    }

    // -------------------------------------------------------------------------------------------
    // Finalize pass
    // -------------------------------------------------------------------------------------------

    method FinalizePass(channels: seq<Channel>, seen: Reads) returns (run: FinalizeRun)
      requires Valid()
      modifies `now, `tasks, `log, opens, funds, closes, finals
      ensures Valid() && run.slots == old(View()) && run.at == old(now) && FinalizeOutcome(cfg, channels, seen, run)
      ensures log == old(log) + run.result.attempts
      ensures Ran(old(View()), old(now), run.result.attempts, View(), now, cfg.lim)
      ensures Exclusive(old(View()), old(now)) ==> Exclusive(View(), now)
    {
      hide FinalizeFold, Ran, Exclusive, CapsHold, StreakAfter, HeldKeys, NoClash, Room, BusyForCause, BusyId,
        AcceptedCount, Overdue;
      var slots, at := View(), now;
      CalmRan(slots, at, slots, at, cfg.lim);
      var cap, wallClock, overdue := cfg.lim.maxFinalizing, seen.wallClock, cfg.overdue;
      var initial := finals.HeldCount(now);
      var ids := IdsOfChannels(channels);
      FinalizeBegins(ids, {FinalizeTx}, slots, at, cap, wallClock, overdue, initial);
      var count: nat, stopped := initial, false;
      var attempts: seq<Attempt> := [];
      var answers: seq<CloseAnswer> := [];
      var i := 0;
      while i < |channels|
        invariant 0 <= i <= |channels| && |answers| == i && Valid() && !stopped
        invariant FinalizeFold(channels[..i], answers, cap, wallClock, overdue, initial)
               == FinalizeState(attempts, count, false)
        invariant log == old(log) + attempts && AllOfKind(attempts, FinalizeTx)
        invariant count == initial + AcceptedCount(attempts)
        invariant BusyForCause(answers, ids[..i], {FinalizeTx}, slots, at, attempts)
        invariant Ran(slots, at, attempts, View(), now, cfg.lim)
        invariant Exclusive(slots, at) ==> Exclusive(View(), now)
      {
        Yield(slots, at, attempts);
        var c, answer := channels[i], CloseAnswer(false, false);
        if count >= cap {
          FinalizeNext(channels, answers, answer, i, cap, wallClock, overdue, initial);
          stopped := true;
          break;
        }
        if finals.IsHeld(Chan(c.id), now) {
          answer := CloseAnswer(true, false);
          BusyHasCause(slots, at, attempts, View(), now, cfg.lim, c.id, {FinalizeTx}, FinalizeTx);
        } else if Overdue(c, wallClock, overdue) {
          FinalizingHasRoom(slots, at, attempts, View(), now, cfg.lim);
          NoClashElsewhere(View(), FinalizeTx, Chan(c.id), now);
          var accepted, met := Dispatch(FinalizeTx, Chan(c.id), 0, slots, at, attempts);
          answer := CloseAnswer(false, accepted);
          BusyStays(answers, ids[..i], {FinalizeTx}, slots, at, attempts,
              [Attempt(FinalizeTx, Chan(c.id), 0, accepted)]);
          AttemptSnoc(attempts, Attempt(FinalizeTx, Chan(c.id), 0, accepted));
          attempts := attempts + [Attempt(FinalizeTx, Chan(c.id), 0, accepted)];
          if accepted {
            count := count + 1;
          }
        }
        FinalizeNext(channels, answers, answer, i, cap, wallClock, overdue, initial);
        BusyNext(answers, answer, ids, i, {FinalizeTx}, slots, at, attempts);
        answers := answers + [answer];
        i := i + 1;
      }
      if stopped {
        BusyPadded(answers, ids, {FinalizeTx}, slots, at, attempts);
        ghost var walked := answers + [CloseAnswer(false, false)];
        answers := answers + seq(|channels| - i, _ => CloseAnswer(false, false));
        assert answers[..i + 1] == walked;
        FinalizeStops(channels, answers, i + 1, cap, wallClock, overdue, initial);
      } else {
        assert channels[..i] == channels && ids[..i] == ids;
      }
      return FinalizeRun(slots, at, answers, FinalizeState(attempts, count, stopped));
    }

    // -------------------------------------------------------------------------------------------
    // Open pass
    // -------------------------------------------------------------------------------------------

    /** Opens a channel to `addr`, or tops up the one it turns out to have; returns what it asked for,
        what is left to spend, and whether it could not afford a needed top-up. */
    method TryOpenChannel(addr: Address, found: Option<Channel>, f: ResolvedFunding, safeRemaining: nat,
                          short: bool, ghost s: SlotSet, ghost t: nat, ghost before: seq<Attempt>)
      returns (made: seq<Attempt>, left: nat, underfunded: bool, accepted: bool, ghost met: SlotSet,
               ghost clashes: seq<Clash>)
      requires Valid() && Ran(s, t, before, View(), now, cfg.lim) && NotOfKind(before, CloseTx)
      requires safeRemaining >= f.initial
      modifies `now, `tasks, `log, opens, funds, closes, finals
      ensures Valid() && log == old(log) + made && NotOfKind(made, CloseTx)
      ensures OpenStep(OpenState(before, safeRemaining, short, false), addr, found, f, accepted)
           == OpenState(before + made, left, short || underfunded, false)
      ensures Ran(s, t, before + made, View(), now, cfg.lim)
      ensures Exclusive(old(View()), old(now)) && NoneClosing(made, s, t) ==> Exclusive(View(), now)
      ensures Calmer(old(View()), old(now), met, now)
      ensures clashes != [] <==>
                Redirected(found, f, safeRemaining) && FundsAClosing(met, Chan(found.value.id), now, cfg.lim)
      ensures AreClashes(clashes, before + made, s, t, cfg.lim)
      ensures Exclusive(old(View()), old(now)) ==> (Exclusive(View(), now) <==> clashes == [])
      ensures NoneClosing(made, s, t) ==> clashes == []
    {
      hide Ran, Exclusive, CapsHold, StreakAfter, Held, NoClash, Room, Live, Spent, AcceptedCount, Calmer,
        FundsAClosing, AreClashes;
      met, clashes := View(), [];
      NoClashes(before, s, t, cfg.lim);
      SameSlotsLater(View(), now, now);
      made, left, underfunded, accepted := [], safeRemaining, false, false;
      assert before + made == before;
      var kind, key, amount := OpenTx, Peer(addr), f.initial;
      if found.Some? && found.value.status.Open? {
        if found.value.balance >= f.lowerThreshold {
          return;
        }
        if safeRemaining < f.topup {
          underfunded := true;
          return;
        }
        kind, key, amount := FundTx, Chan(found.value.id), f.topup;
      } else if found.Some? && found.value.status.PendingToClose? {
        return;
      }
      NoCeiling(View(), kind, now, cfg.lim);
      ghost var s1, t1 := View(), now;
      accepted, met := Dispatch(kind, key, amount, s, t, before);
      if Exclusive(s1, t1) {
        DispatchExclusiveIff(met, kind, key, now, cfg.lim);
      }
      made := [Attempt(kind, key, amount, accepted)];
      if accepted {
        left := safeRemaining - amount;
      }
      NoClashes(before + made, s, t, cfg.lim);
      if kind == FundTx && FundsAClosing(met, key, now, cfg.lim) {
        ClosingIsGranted(met, key, now, cfg.lim);
        ClashAtEnd(before, key, amount, met, now, s, t, cfg.lim);
        clashes := [Clash(|before|, met, now)];
      }
      if NoneClosing(made, s, t) {
        assert kind == FundTx ==> made[0].kind == FundTx && made[0].key == key;
        OpeningDoesNotClash(s, t, before, s1, t1, cfg.lim, kind, key);
        if kind == FundTx {
          StaysClear(s, t, before, met, now, cfg.lim, key);
        }
      }
    }

    method OpenPass(deficit: nat, f: ResolvedFunding, budget: nat, seen: Reads)
      returns (run: OpenRun, ghost clashes: seq<Clash>)
      requires Valid()
      modifies `now, `tasks, `log, opens, funds, closes, finals
      ensures Valid() && run.slots == old(View()) && run.at == old(now) && OpenOutcome(deficit, f, budget, seen, run)
      ensures log == old(log) + run.result.attempts
      ensures Ran(old(View()), old(now), run.result.attempts, View(), now, cfg.lim)
      ensures AreClashes(clashes, run.result.attempts, old(View()), old(now), cfg.lim)
      ensures Exclusive(old(View()), old(now)) && clashes == [] ==> Exclusive(View(), now)
      ensures NoneClosing(run.result.attempts, old(View()), old(now)) ==> clashes == []
    {
      hide OpenFold, OpenStep, Ran, Exclusive, CapsHold, StreakAfter, Live, Held, NoneClosing, Spent, AreClashes;
      clashes := [];
      NoClashes([], View(), now, cfg.lim);
      var slots, at := View(), now;
      CalmRan(slots, at, slots, at, cfg.lim);
      var addrs := seen.opensRanked[..Min(deficit, |seen.opensRanked|)];
      var found := Reread(addrs, seen.reread);
      OpenBegins(addrs, found, f, budget);
      var safeRemaining: nat, short, stopped := budget, false, false;
      var attempts: seq<Attempt> := [];
      var answers: seq<bool> := [];
      var i := 0;
      while i < |addrs|
        invariant 0 <= i <= |addrs| && |answers| == i && Valid() && !stopped
        invariant OpenFold(addrs[..i], found[..i], answers, f, budget)
               == OpenState(attempts, safeRemaining, short, false)
        invariant log == old(log) + attempts && NotOfKind(attempts, CloseTx)
        invariant Ran(slots, at, attempts, View(), now, cfg.lim)
        invariant AreClashes(clashes, attempts, slots, at, cfg.lim)
        invariant Exclusive(slots, at) && clashes == [] ==> Exclusive(View(), now)
        invariant NoneClosing(attempts, slots, at) ==> clashes == []
      {
        if safeRemaining < f.initial {
          OpenNext(addrs, found, answers, false, i, f, budget);
          OpenStepStops(OpenState(attempts, safeRemaining, short, false), addrs[i], found[i], f, false);
          short, stopped := true, true;
          break;
        }
        var made, left, underfunded, accepted, met, clash :=
          TryOpenChannel(addrs[i], found[i], f, safeRemaining, short, slots, at, attempts);
        ClashesAmongMore(clashes, attempts, clash, made, slots, at, cfg.lim);
        clashes := clashes + clash;
        OpenNext(addrs, found, answers, accepted, i, f, budget);
        NoneClosingSplit(attempts, made, slots, at);
        attempts, safeRemaining, short := attempts + made, left, short || underfunded;
        answers := answers + [accepted];
        i := i + 1;
      }
      if stopped {
        ghost var walked := answers + [false];
        answers := answers + seq(|addrs| - i, _ => false);
        assert answers[..i + 1] == walked;
        OpenStops(addrs, found, answers, i + 1, f, budget);
      } else {
        assert addrs[..i] == addrs && found[..i] == found;
      }
      run := OpenRun(slots, at, addrs, answers, OpenState(attempts, safeRemaining, short, stopped));
    }

    // -------------------------------------------------------------------------------------------
    // A tick
    // -------------------------------------------------------------------------------------------

    /** Drops expired slots of all four kinds. */
    method SweepAll()
      requires Valid()
      modifies opens, funds, closes, finals
      ensures Valid() && Calmer(old(View()), now, View(), now)
      ensures OnlyUnexpired(old(View()).open, View().open, now) && OnlyUnexpired(old(View()).fund, View().fund, now)
      ensures OnlyUnexpired(old(View()).close, View().close, now)
      ensures OnlyUnexpired(old(View()).finalize, View().finalize, now)
    {
      hide OnlyUnexpired, CapsHold, StreakAfter, Shrunk;
      SweptIsUnexpired(View().open, now);
      SweptIsUnexpired(View().fund, now);
      SweptIsUnexpired(View().close, now);
      SweptIsUnexpired(View().finalize, now);
      opens.Sweep(now);
      funds.Sweep(now);
      closes.Sweep(now);
      finals.Sweep(now);
      CalmerKeeps(old(View()), now, View(), now, cfg.lim);
    }

    method FundStage(channels: seq<Channel>, seen: Reads, r: Report, ghost s: SlotSet, ghost t: nat)
      returns (r': Report, verdict: Severity)
      requires Valid() && Ran(s, t, [], View(), now, cfg.lim)
      modifies `now, `tasks, `log, opens, funds, closes, finals
      ensures Valid() && r' == r.(fund := r'.fund) && FundPart(cfg, channels, seen, r') && verdict == FundVerdict(r')
      ensures r'.fund.Some? ==> Ran(s, t, [], r'.fund.value.slots, r'.fund.value.at, cfg.lim)
      ensures old(now) <= now
      ensures log == old(log) + FundAttempts(r') && Ran(s, t, FundAttempts(r'), View(), now, cfg.lim)
      ensures Exclusive(old(View()), old(now)) ==> Exclusive(View(), now)
    {
      hide Ran, Exclusive, CapsHold, StreakAfter, FundOutcome;
      Yield(s, t, []);
      r', verdict := r.(fund := None), Failed;
      var f, b := r.funding, SafeBudget(seen.safe);
      if f.Some? && b.Some? {
        ghost var s1, t1 := View(), now;
        var run := FundPass(channels, r.openCount, f.value, b.value, seen);
        RanThen(s, t, [], s1, t1, run.result.attempts, View(), now, cfg.lim);
        RanAdvances(s1, t1, run.result.attempts, View(), now, cfg.lim);
        assert [] + run.result.attempts == run.result.attempts;
        r', verdict := r.(fund := Some(run)), if run.result.short then Degraded else Running;
      }
    }

    method CloseStage(channels: seq<Channel>, seen: Reads, r: Report,
                      ghost s: SlotSet, ghost t: nat, ghost before: seq<Attempt>)
      returns (r': Report, verdict: Severity)
      requires Valid() && Distinct(channels) && Ran(s, t, before, View(), now, cfg.lim)
      modifies `now, `tasks, `log, `streak, `sightings, opens, funds, closes, finals
      ensures Valid() && r' == r.(phaseAt := r'.phaseAt, phase := r'.phase, close := r'.close)
      ensures ClosePart(cfg, start, channels, streak, seen, r') && verdict == CloseVerdict(channels, seen, r')
      ensures old(now) <= r'.phaseAt
      ensures r'.close.Some? ==> Ran(s, t, before, r'.close.value.slots, r'.close.value.at, cfg.lim)
      ensures sightings == old(sightings)
                           + if r'.close.None? then []
                             else [Sighting(Destinations(Opened(channels)), DownAtClosing(seen))]
      ensures log == old(log) + CloseAttempts(r') && Ran(s, t, before + CloseAttempts(r'), View(), now, cfg.lim)
      ensures r'.phaseAt <= now
      ensures Exclusive(old(View()), old(now)) ==> Exclusive(View(), now)
    {
      hide Ran, Exclusive, CapsHold, StreakAfter, CloseOutcome, PhaseAt, Filter, Distinct;
      Yield(s, t, before);
      verdict := Running;
      var phase := PhaseAt(now - start, cfg.observation, cfg.grace);
      r' := r.(phaseAt := now, phase := phase, close := None);
      if phase != Observing {
        if seen.peers.None? && Opened(channels) != [] {
          verdict := Degraded;
        }
        OpenedDistinct(channels);
        ghost var s1, t1 := View(), now;
        var run := ClosePass(channels, r.openCount, seen);
        RanThen(s, t, before, s1, t1, run.result.attempts, View(), now, cfg.lim);
        RanAdvances(s1, t1, run.result.attempts, View(), now, cfg.lim);
        r' := r'.(close := Some(run));
      } else {
        assert before + [] == before;
      }
    }

    method ConsolidationStage(channels: seq<Channel>, seen: Reads, r: Report,
                              ghost s: SlotSet, ghost t: nat, ghost before: seq<Attempt>)
      returns (r': Report, verdict: Severity)
      requires Valid() && FundPart(cfg, channels, seen, r) && Ran(s, t, before, View(), now, cfg.lim)
      modifies `now, `tasks, `log, opens, funds, closes, finals
      ensures Valid() && r' == r.(reclaim := r'.reclaim, topup := r'.topup)
      ensures FundPart(cfg, channels, seen, r') && ReclaimPart(cfg, channels, seen, r')
      ensures verdict == ConsolidationVerdict(r')
      ensures r'.reclaim.Some? ==> Ran(s, t, before, r'.reclaim.value.slots, r'.reclaim.value.at, cfg.lim)
      ensures r'.topup.Some? ==>
                Ran(s, t, before + ReclaimAttempts(r'), r'.topup.value.slots, r'.topup.value.at, cfg.lim)
      ensures log == old(log) + (ReclaimAttempts(r') + TopUpAttempts(r'))
      ensures Ran(s, t, before + (ReclaimAttempts(r') + TopUpAttempts(r')), View(), now, cfg.lim)
      ensures old(now) <= now
      ensures Exclusive(old(View()), old(now)) ==> Exclusive(View(), now)
    {
      hide Ran, Exclusive, CapsHold, StreakAfter, FundOutcome, ReclaimOutcome, TopUpOutcome, AcceptedCount, Filter;
      Yield(s, t, before);
      var f, b := r.funding, SafeBudget(seen.safe);
      r', verdict := r.(reclaim := None, topup := None), Running;
      if r.fund.Some? && f.value.face > 0 && Deferred(r) != {} {
        ghost var s1, t1 := View(), now;
        var reclaim, topup := Consolidate(channels, Deferred(r), f.value, b.value, r.phase, seen,
            BudgetAfterFunding(seen, r));
        r' := r.(reclaim := Some(reclaim), topup := topup);
        if topup.Some? {
          RanThen(s, t, before, s1, t1, reclaim.result.attempts, topup.value.slots, topup.value.at, cfg.lim);
        }
        RanThen(s, t, before, s1, t1, ReclaimAttempts(r') + TopUpAttempts(r'), View(), now, cfg.lim);
        RanAdvances(s1, t1, ReclaimAttempts(r') + TopUpAttempts(r'), View(), now, cfg.lim);
        if AcceptedCount(reclaim.result.attempts) > 0 || (topup.Some? && topup.value.result.short) {
          verdict := Degraded;
        }
      } else {
        NothingAccepted();
        assert ReclaimAttempts(r') + TopUpAttempts(r') == [] && before + [] == before;
      }
    }

    method FinalizeStage(channels: seq<Channel>, seen: Reads, r: Report,
                         ghost s: SlotSet, ghost t: nat, ghost before: seq<Attempt>)
      returns (r': Report)
      requires Valid() && Ran(s, t, before, View(), now, cfg.lim)
      modifies `now, `tasks, `log, opens, funds, closes, finals
      ensures Valid() && r' == r.(finalize := r'.finalize) && FinalizePart(cfg, channels, seen, r')
      ensures r'.finalize.Some? ==> Ran(s, t, before, r'.finalize.value.slots, r'.finalize.value.at, cfg.lim)
      ensures log == old(log) + FinalizeAttempts(r') && Ran(s, t, before + FinalizeAttempts(r'), View(), now, cfg.lim)
      ensures old(now) <= now
      ensures Exclusive(old(View()), old(now)) ==> Exclusive(View(), now)
    {
      hide Ran, Exclusive, CapsHold, StreakAfter, FinalizeOutcome;
      Yield(s, t, before);
      r' := r.(finalize := None);
      if cfg.finalizerEnabled {
        ghost var s1, t1 := View(), now;
        var run := FinalizePass(channels, seen);
        RanThen(s, t, before, s1, t1, run.result.attempts, View(), now, cfg.lim);
        RanAdvances(s1, t1, run.result.attempts, View(), now, cfg.lim);
        r' := r.(finalize := Some(run));
      } else {
        assert before + [] == before;
      }
    }

    method OpenStage(seen: Reads, r: Report, ghost s: SlotSet, ghost t: nat, ghost before: seq<Attempt>)
      returns (r': Report, verdict: Severity, ghost clashes: seq<Clash>)
      requires Valid() && Ran(s, t, before, View(), now, cfg.lim)
      modifies `now, `tasks, `log, opens, funds, closes, finals
      ensures Valid() && r' == r.(open := r'.open) && OpenPart(cfg, seen, r') && verdict == OpenVerdict(cfg, seen, r')
      ensures r'.open.Some? ==> Ran(s, t, before, r'.open.value.slots, r'.open.value.at, cfg.lim)
      ensures log == old(log) + OpenAttempts(r') && Ran(s, t, before + OpenAttempts(r'), View(), now, cfg.lim)
      ensures old(now) <= now
      ensures AreClashes(clashes, before + OpenAttempts(r'), s, t, cfg.lim)
      ensures Exclusive(old(View()), old(now)) && clashes == [] ==> Exclusive(View(), now)
      ensures RedirectsClear(r') ==> clashes == []
    {
      hide Ran, Exclusive, CapsHold, StreakAfter, OpenOutcome, NoneClosing, AreClashes;
      clashes := [];
      NoClashes(before, s, t, cfg.lim);
      Yield(s, t, before);
      assert before + [] == before;
      r', verdict := r.(open := None), Running;
      var deficit := SatSub(cfg.targetOpen, r.openCount);
      if deficit == 0 {
        return;
      }
      if seen.peers.None? {
        verdict := Failed;
        return;
      }
      var f := r.funding;
      if f.None? || SafeBudget(seen.safe).None? || f.value.initial == 0 {
        return;
      }
      ghost var s1, t1 := View(), now;
      var run, met := OpenPass(deficit, f.value, BudgetAfterTopUps(seen, r), seen);
      ClashesOfTheWhole(met, before, run.result.attempts, s, t, s1, t1, cfg.lim);
      clashes := Shifted(met, |before|);
      RanThen(s, t, before, s1, t1, run.result.attempts, View(), now, cfg.lim);
      RanAdvances(s1, t1, run.result.attempts, View(), now, cfg.lim);
      r' := r.(open := Some(run));
      if run.result.short {
        verdict := Degraded;
      }
    }

    /** The five passes over a channel list that could be read. */
    method RunPasses(channels: seq<Channel>, funding: Option<ResolvedFunding>,
                     seen: Reads, ghost s: SlotSet, ghost t: nat)
      returns (r: Report, verdict: Severity, ghost clashes: seq<Clash>)
      requires Valid() && Distinct(channels) && Ran(s, t, [], View(), now, cfg.lim)
      modifies `now, `tasks, `log, `streak, `sightings, opens, funds, closes, finals
      ensures Valid() && r.funding == funding && TickOutcome(cfg, start, channels, streak, seen, r)
      ensures InOrder(s, t, r, cfg.lim)
      ensures verdict == SeverityOf(cfg, channels, seen, r) && r.phaseAt <= now
      ensures sightings == old(sightings)
                           + if r.close.None? then []
                             else [Sighting(Destinations(Opened(channels)), DownAtClosing(seen))]
      ensures log == old(log) + AllAttempts(r) && Ran(s, t, AllAttempts(r), View(), now, cfg.lim)
      ensures AreClashes(clashes, AllAttempts(r), s, t, cfg.lim)
      ensures Exclusive(old(View()), old(now)) && clashes == [] ==> Exclusive(View(), now)
      ensures RedirectsClear(r) ==> clashes == []
    {
      hide AreClashes, Ran, Exclusive, CapsHold, StreakAfter, Funding, Held, Distinct, Filter, AcceptedCount, FundPart,
        ClosePart, ReclaimPart, FinalizePart, OpenPart, FundVerdict, CloseVerdict, ConsolidationVerdict, OpenVerdict,
        RedirectsClear, SeverityOf, TickOutcome, InOrder, FundAttempts, CloseAttempts, ReclaimAttempts, TopUpAttempts,
        FinalizeAttempts, OpenAttempts, AllAttempts, Worse, CapsHold, Destinations, DownAtClosing;
      var openCount := CountOpen(channels);
      var r0 := Report(View(), now, openCount, funding, now, Observing, None, None, None, None, None, None);
      var r1, v1 := FundStage(channels, seen, r0, s, t);
      var r2, v2 := CloseStage(channels, seen, r1, s, t, FundAttempts(r1));
      PartsKept(cfg, start, channels, streak, seen, r1, r2);
      ghost var before := FundAttempts(r1) + CloseAttempts(r2);
      var r3, v3 := ConsolidationStage(channels, seen, r2, s, t, before);
      assert before + (ReclaimAttempts(r3) + TopUpAttempts(r3)) == before + ReclaimAttempts(r3) + TopUpAttempts(r3);
      before := before + ReclaimAttempts(r3) + TopUpAttempts(r3);
      var r4 := FinalizeStage(channels, seen, r3, s, t, before);
      var v5;
      r, v5, clashes := OpenStage(seen, r4, s, t, before + FinalizeAttempts(r4));
      verdict := Worse(Worse(Worse(Worse(Running, v1), v2), v3), v5);
      Assembled(cfg, start, channels, streak, seen, r1, r2, r3, r4, r);
      AssembledInOrder(s, t, r1, r2, r3, r4, r, cfg.lim);
    }

    /** One run of the pipeline. Without the channel list nothing is done at all. */
    method Tick(seen: Reads) returns (report: Option<Report>, ghost clashes: seq<Clash>)
      requires Valid() && (seen.channels.Some? ==> Distinct(seen.channels.value))
      modifies this, opens, funds, closes, finals
      ensures Valid() && (report.Some? <==> seen.channels.Some?)
      ensures report.None? ==> state == Failed && sightings == old(sightings) && lastFunding == old(lastFunding)
      ensures report.Some? ==> TickOutcome(cfg, start, seen.channels.value, streak, seen, report.value)
      ensures report.Some? ==> InOrder(old(View()), old(now), report.value, cfg.lim) && report.value.phaseAt <= now
      ensures report.Some? ==> state == SeverityOf(cfg, seen.channels.value, seen, report.value)
      ensures report.Some? ==> sightings == old(sightings) + Sightings(seen, report.value)
      ensures report.Some? ==> report.value.funding == Funding(cfg, seen)
      ensures report.Some? ==>
                lastFunding == if report.value.funding.Some? then report.value.funding else old(lastFunding)
      ensures log == old(log) + MadeBy(report)
      ensures Ran(old(View()), old(now), MadeBy(report), View(), now, cfg.lim)
      ensures AreClashes(clashes, MadeBy(report), old(View()), old(now), cfg.lim)
      ensures Exclusive(old(View()), old(now)) && clashes == [] ==> Exclusive(View(), now)
      ensures (report.Some? ==> RedirectsClear(report.value)) ==> clashes == []
    {
      hide AreClashes, Ran, Exclusive, CapsHold, StreakAfter, Funding, Held, Distinct, Filter, Calmer, RedirectsClear,
        SeverityOf, TickOutcome, InOrder, AllAttempts;
      ghost var s, t := View(), now;
      clashes := [];
      NoClashes([], s, t, cfg.lim);
      SweepAll();
      CalmRan(s, t, View(), now, cfg.lim);
      CalmerKeeps(s, t, View(), now, cfg.lim);
      Yield(s, t, []);
      if seen.channels.None? {
        state := Failed;
        return None, [];
      }
      var f := Funding(cfg, seen);
      if f.Some? {
        lastFunding := f;
      }
      Yield(s, t, []);
      var r, verdict;
      r, verdict, clashes := RunPasses(seen.channels.value, f, seen, s, t);
      state := verdict;
      report := Some(r);
    }

    // -------------------------------------------------------------------------------------------
    // Chain events
    // -------------------------------------------------------------------------------------------

    /** Answers a balance decrease. `met` are the slots at the moment of the dispatch, after the
        environment's turn. */
    method OnBalanceDecreased(c: Channel, safe: Option<SafeInfo>)
      returns (made: seq<Attempt>, ghost met: SlotSet, ghost clashes: seq<Clash>)
      requires Valid()
      modifies `now, `tasks, `log, opens, funds, closes, finals
      ensures Valid() && log == old(log) + made
      ensures Ran(old(View()), old(now), made, View(), now, cfg.lim)
      ensures AnswersWith(made, c, safe, lastFunding, old(View()), old(now))
      ensures Calmer(old(View()), old(now), met, now)
      ensures clashes != [] <==> made != [] && FundsAClosing(met, Chan(c.id), now, cfg.lim)
      ensures AreClashes(clashes, made, old(View()), old(now), cfg.lim)
      ensures Exclusive(old(View()), old(now)) ==> (Exclusive(View(), now) <==> clashes == [])
    {
      hide Ran, Exclusive, CapsHold, StreakAfter, Held, Room, NoClash, Calmer, FundsAClosing, AreClashes;
      made, met, clashes := [], View(), [];
      NoClashes([], View(), now, cfg.lim);
      SameSlotsLater(View(), now, now);
      CalmRan(View(), now, View(), now, cfg.lim);
      if c.status.Open? && !funds.IsHeld(Chan(c.id), now) && lastFunding.Some? {
        var f := lastFunding.value;
        if c.balance < f.lowerThreshold {
          var budget := SafeBudget(safe);
          if budget.Some? && f.topup > 0 && budget.value.spendable >= f.topup {
            ghost var s1, t1 := View(), now;
            NoCeiling(s1, FundTx, now, cfg.lim);
            var ok;
            ok, met := Dispatch(FundTx, Chan(c.id), f.topup, View(), now, []);
            made := [Attempt(FundTx, Chan(c.id), f.topup, ok)];
            assert [] + made == made;
            if Exclusive(s1, t1) {
              DispatchExclusiveIff(met, FundTx, Chan(c.id), now, cfg.lim);
            }
            NoClashes(made, s1, t1, cfg.lim);
            if FundsAClosing(met, Chan(c.id), now, cfg.lim) {
              ClosingIsGranted(met, Chan(c.id), now, cfg.lim);
              ClashAtEnd([], Chan(c.id), f.topup, met, now, s1, t1, cfg.lim);
              clashes := [Clash(0, met, now)];
            }
          }
        }
      }
    }

    /** A chain event names a channel but no task: whoever holds the slot loses it. */
    method Forget(kind: Kind, key: Key)
      requires Valid()
      modifies opens, funds, closes, finals
      ensures Valid() && View() == WithTable(old(View()), kind, Released(TableOf(old(View()), kind), key))
      ensures Ran(old(View()), now, [], View(), now, cfg.lim)
      ensures Exclusive(old(View()), now) ==> Exclusive(View(), now)
    {
      var leases := LeasesOf(kind);
      leases.Release(key);
      hide Ran, Exclusive, CapsHold, StreakAfter, HeldKeys;
      CalmerKeeps(old(View()), now, View(), now, cfg.lim);
      CalmRan(old(View()), now, View(), now, cfg.lim);
    }

    // -------------------------------------------------------------------------------------------
    // The event loop
    // -------------------------------------------------------------------------------------------

    /** Serves one event after another; `served` tells how. The concurrency caps are part of `Valid`, so
        they hold after every event and, since every method above keeps it, at every dispatch in between. */
    method Drive(events: seq<Event>) returns (ticks: seq<TickRecord>, ghost served: seq<Served>)
      requires Valid() && forall i :: 0 <= i < |events| ==> WellFormed(events[i])
      modifies this, opens, funds, closes, finals
      ensures Valid() && log == old(log) + MadeOf(served) && ticks == TicksOf(served)
      ensures AllServed(events, served, old(lastFunding), old(View()), old(now), cfg.lim)
      ensures lastFunding == FundingAfter(old(lastFunding), served)
      ensures Ran(old(View()), old(now), MadeOf(served), View(), now, cfg.lim)
      ensures Faithful(cfg, start, old(sightings), ticks) && sightings == SightingsOf(old(sightings), ticks)
      ensures InTime(ticks, old(now), now) && ResolvedAsRead(cfg, ticks)
      ensures Exclusive(old(View()), old(now)) && NeverClashed(served) ==> Exclusive(View(), now)
      ensures (forall i :: 0 <= i < |events| ==> PassesOnly(events[i])) ==> NeverClashed(served)
    {
      hide Ran, Exclusive, CapsHold, StreakAfter, TickOutcome, InOrder, Distinct, SeverityOf, AllAttempts, SightingsOf,
        Faithful, InTime, Held, Funding, MadeOf, TicksOf, FundingAfter, FundingNext, AllServed, EventServed;
      ticks, served := [], [];
      CalmRan(View(), now, View(), now, cfg.lim);
      NoTicks(cfg, start, sightings, now);
      NothingServed(events, lastFunding, View(), now, cfg.lim);
      for i := 0 to |events|
        invariant Valid() && log == old(log) + MadeOf(served) && ticks == TicksOf(served) && old(now) <= now
        invariant AllServed(events[..i], served, old(lastFunding), old(View()), old(now), cfg.lim)
        invariant lastFunding == FundingAfter(old(lastFunding), served)
        invariant Ran(old(View()), old(now), MadeOf(served), View(), now, cfg.lim)
        invariant Faithful(cfg, start, old(sightings), ticks) && sightings == SightingsOf(old(sightings), ticks)
        invariant InTime(ticks, old(now), now) && ResolvedAsRead(cfg, ticks)
        invariant Exclusive(old(View()), old(now)) && NeverClashed(served) ==> Exclusive(View(), now)
      {
        ghost var n0 := now;
        Yield(old(View()), old(now), MadeOf(served));
        assert WellFormed(events[i]);
        ghost var s1, t1 := View(), now;
        var made, record, clashes := Serve(events[i]);
        RanThen(old(View()), old(now), MadeOf(served), s1, t1, made, View(), now, cfg.lim);
        RanAdvances(s1, t1, made, View(), now, cfg.lim);
        TickAdded(cfg, start, old(sightings), ticks, record, old(now), n0, now);
        ghost var r := Served.Served(s1, t1, made, record, clashes, View());
        ServedOneMore(events, i, served, r, old(lastFunding), old(View()), old(now), cfg.lim);
        NeverClashedMore(served, r);
        served := served + [r];
        ticks := ticks + record;
      }
      assert events[..|events|] == events;
      PassesNeverClash(events, served, old(lastFunding), old(View()), old(now), cfg.lim);
    }

    method Serve(e: Event) returns (made: seq<Attempt>, record: seq<TickRecord>, ghost clashes: seq<Clash>)
      requires Valid() && WellFormed(e)
      modifies this, opens, funds, closes, finals
      ensures Valid() && log == old(log) + made
      ensures EventServed(e, Served.Served(old(View()), old(now), made, record, clashes, View()), old(lastFunding),
                          cfg.lim)
      ensures lastFunding == FundingNext(old(lastFunding), record)
      ensures Ran(old(View()), old(now), made, View(), now, cfg.lim)
      ensures record == [] ==> sightings == old(sightings)
      ensures |record| <= 1 && (record != [] ==>
                && record[0].seen.channels.Some?
                && sightings == old(sightings) + Sightings(record[0].seen, record[0].report)
                && TickOutcome(cfg, start, record[0].seen.channels.value, StreakAfter(sightings),
                               record[0].seen, record[0].report)
                && record[0].report.funding == Funding(cfg, record[0].seen)
                && old(now) <= record[0].report.phaseAt <= now)
      ensures Exclusive(old(View()), old(now)) && clashes == [] ==> Exclusive(View(), now)
    {
      hide AreClashes, Ran, Exclusive, CapsHold, StreakAfter, TickOutcome, InOrder, Distinct, SeverityOf, AllAttempts,
        RedirectsClear, Held, Sightings, Funding, AnswersWith, FundsAClosing, Settles, Frees, TableOf, WithTable,
        Released;
      made, record, clashes := [], [], [];
      ghost var s, t := View(), now;
      NoClashes([], s, t, cfg.lim);
      CalmRan(s, t, s, t, cfg.lim);
      match e {
        case TickDue(seen) =>
          var report;
          report, clashes := Tick(seen);
          made := MadeBy(report);
          if report.Some? {
            record := [TickRecord(seen, report.value)];
            PhaseAfterStart(s, t, report.value, cfg.lim);
            if PassesOnly(e) {
              NoRedirects(cfg, start, seen.channels.value, streak, seen, report.value);
            }
          }
        case BalanceDecreased(c, safe) =>
          ghost var met;
          made, met, clashes := OnBalanceDecreased(c, safe);
        case BalanceIncreased(c) => Forget(FundTx, Chan(c.id));
        case ChannelOpened(c) => Forget(OpenTx, Peer(c.destination));
        case ClosureInitiated(c) => Forget(CloseTx, Chan(c.id));
        case ChannelClosed(c) => Forget(FinalizeTx, Chan(c.id));
        case Other =>
      }
      if SlotOf(e).Some? {
        ReleaseSettles(e, s);
      } else {
        NothingToSettle(e, s, View());
      }
    }
  }
}
