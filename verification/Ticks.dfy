/**
 What one tick reads, what each of its passes is given, and what it has done when it returns; and the
 promises that follow for the tick as a whole. `Strategy` proves that its tick produces such a report.
 */
module Ticks {
  import opened Common
  import opened Sizing
  import opened Leases
  import opened Passes
  import opened Slots
  import Consolidation

  datatype Config = Config(
    lim: Limits, minOpen: nat, targetOpen: nat, drainedBelow: nat, debounceTicks: nat,
    finalizerEnabled: bool, overdue: nat, observation: nat, grace: nat,
    funding: FundingConfig, payload: nat, hops: nat, snap: real)

  /** Configuration validation rejects a zero lease timeout; the transport's payload is never empty. */
  predicate ValidConfig(cfg: Config) { cfg.lim.leaseTimeout > 0 && cfg.payload > 0 }

  // ---------------------------------------------------------------------------------------------
  // What a tick reads
  // ---------------------------------------------------------------------------------------------

  datatype SafeInfo = Unregistered | Registered(balance: nat, allowance: nat)

  /** What the Safe owns, and what a transaction can move of it. */
  datatype Budget = Budget(balance: nat, spendable: nat)

  function SafeBudget(safe: Option<SafeInfo>): Option<Budget> {
    match safe
    case None => None
    case Some(Unregistered) => Some(Budget(0, 0))
    case Some(Registered(balance, allowance)) => Some(Budget(balance, Min(balance, allowance)))
  }

  datatype Economics = Economics(price: nat, winProb: Option<real>)

  /** Destinations known to be peers that are not connected, as seen by the fund and by the close pass. */
  datatype Peers = Peers(downAtFunding: set<Address>, downAtClosing: set<Address>)

  /** Every external answer of one tick; an absent one could not be had in time. The lists of channels
      to close and peers to open to are whatever the selector returned. */
  datatype Reads = Reads(
    channels: Option<seq<Channel>>, safe: Option<SafeInfo>, economics: Option<Economics>, peers: Option<Peers>,
    active: set<Address>, proactive: set<ChannelId>, quality: map<ChannelId, real>,
    closesRanked: seq<ChannelId>, perTickCap: Option<nat>,
    opensRanked: seq<Address>, reread: map<Address, Channel>, wallClock: nat)

  function Funding(cfg: Config, seen: Reads): Option<ResolvedFunding>
    requires ValidConfig(cfg)
  {
    match seen.economics
    case None => None
    case Some(e) => Some(Resolve(cfg.funding, cfg.payload, e.price, e.winProb, cfg.hops, cfg.snap))
  }

  function DownAtFunding(seen: Reads): set<Address> {
    if seen.peers.Some? then seen.peers.value.downAtFunding else {}
  }

  function DownAtClosing(seen: Reads): set<Address> {
    if seen.peers.Some? then seen.peers.value.downAtClosing else {}
  }

  const IS_OPEN: Channel -> bool := (c: Channel) => c.status.Open?

  function Opened(channels: seq<Channel>): seq<Channel> { Filter(channels, IS_OPEN) }

  /** A channel is identified by its two ends, so from one node's channels both the identifier and the
      destination tell them apart. */
  ghost predicate Distinct(channels: seq<Channel>) {
    forall i, j :: 0 <= i < j < |channels| ==>
      channels[i].id != channels[j].id && channels[i].destination != channels[j].destination
  }

  // ---------------------------------------------------------------------------------------------
  // What each pass is given
  // ---------------------------------------------------------------------------------------------

  /** A drained channel is topped up again only when the operator has not asked to retire it and its
      peer is still worth keeping. */
  predicate Refundable(c: Channel, drainedBelow: nat, seen: Reads) {
    || c.balance > drainedBelow
    || (drainedBelow == 0 && (c.destination !in DownAtFunding(seen) || c.destination in seen.active))
  }

  function NeedsFunds(cfg: Config, s: SlotSet, now: nat, f: ResolvedFunding, seen: Reads): Channel -> bool {
    (c: Channel) =>
      && !Live(s.fund, Chan(c.id), now) && !Live(s.close, Chan(c.id), now)
      && Refundable(c, cfg.drainedBelow, seen)
      && (c.balance <= f.lowerThreshold || c.id in seen.proactive)
  }

  /** The neediest first. */
  function FundCandidates(cfg: Config, open: seq<Channel>, s: SlotSet, now: nat, f: ResolvedFunding, seen: Reads)
    : seq<Channel>
  {
    StableSort(Filter(open, NeedsFunds(cfg, s, now, f, seen)), BY_BALANCE)
  }

  function Retirable(open: seq<Channel>, down: set<Address>, streak: map<Address, nat>, debounce: nat): set<ChannelId> {
    set c | c in open && c.destination in down && StreakOf(streak, c.destination) >= Max(debounce, 1) :: c.id
  }

  function KnownIds(open: seq<Channel>): set<ChannelId> { set c | c in open :: c.id }

  function Destinations(open: seq<Channel>): set<Address> { set c | c in open :: c.destination }

  function IsFree(deferred: set<ChannelId>, s: SlotSet, now: nat): Channel -> bool {
    (c: Channel) => c.id in deferred && !Live(s.fund, Chan(c.id), now) && !Live(s.close, Chan(c.id), now)
  }

  function QualityOf(quality: map<ChannelId, real>, id: ChannelId): real {
    if id in quality then quality[id] else 0.0
  }

  function Ranked(cs: seq<Channel>, quality: map<ChannelId, real>): (r: seq<Consolidation.Candidate>)
    ensures |r| == |cs|
    ensures forall i :: 0 <= i < |cs| ==>
              r[i] == Consolidation.Candidate(cs[i].id, cs[i].balance, QualityOf(quality, cs[i].id))
  {
    seq(|cs|, i requires 0 <= i < |cs| =>
      Consolidation.Candidate(cs[i].id, cs[i].balance, QualityOf(quality, cs[i].id)))
  }

  /** Stake on its way back to the Safe. */
  function Reclaiming(channels: seq<Channel>, s: SlotSet, now: nat): nat {
    if channels == [] then 0
    else
      var last := channels[|channels| - 1];
      Reclaiming(channels[..|channels| - 1], s, now)
      + if last.status.PendingToClose? || Live(s.close, Chan(last.id), now) then last.balance else 0
  }

  function IsSurvivor(deferred: set<ChannelId>, closes: seq<ChannelId>, s: SlotSet, now: nat): Channel -> bool {
    (c: Channel) => IsFree(deferred, s, now)(c) && c.id !in closes
  }

  function Survivors(open: seq<Channel>, deferred: set<ChannelId>, closes: seq<ChannelId>, s: SlotSet, now: nat)
    : seq<Channel>
  {
    StableSort(Filter(open, IsSurvivor(deferred, closes, s, now)), BY_BALANCE_DESC)
  }

  function Reread(addrs: seq<Address>, reread: map<Address, Channel>): (r: seq<Option<Channel>>)
    ensures |r| == |addrs|
  {
    seq(|addrs|, i requires 0 <= i < |addrs| => if addrs[i] in reread then Some(reread[addrs[i]]) else None)
  }

  // ---------------------------------------------------------------------------------------------
  // What each pass reports: the slots it found, its worklist, its answers and its counters
  // ---------------------------------------------------------------------------------------------

  datatype FundRun = FundRun(slots: SlotSet, at: nat, candidates: seq<Channel>, stranded: bool, answers: seq<bool>,
                             result: FundState)

  datatype CloseRun = CloseRun(slots: SlotSet, at: nat, guards: CloseGuards, unranked: seq<ChannelId>,
                               answers: seq<CloseAnswer>, result: CloseState)

  datatype ReclaimRun = ReclaimRun(slots: SlotSet, at: nat, underfunded: seq<Channel>, reclaiming: nat,
                                   closes: seq<ChannelId>, answers: seq<bool>, result: ReclaimState)

  datatype TopUpRun = TopUpRun(slots: SlotSet, at: nat, survivors: seq<Channel>, answers: seq<bool>, result: TopUpState)

  datatype FinalizeRun = FinalizeRun(slots: SlotSet, at: nat, answers: seq<CloseAnswer>, result: FinalizeState)

  datatype OpenRun = OpenRun(slots: SlotSet, at: nat, addrs: seq<Address>, answers: seq<bool>, result: OpenState)

  ghost predicate FundOutcome(cfg: Config, open: seq<Channel>, openCount: nat,
                              f: ResolvedFunding, b: Budget, seen: Reads, run: FundRun)
  {
    && run.candidates == FundCandidates(cfg, open, run.slots, run.at, f, seen)
    && run.stranded == (b.balance < RequiredSafeBalance(f, |run.candidates|, SatSub(cfg.minOpen, openCount)))
    && (if f.topup == 0 || f.face == 0 then run.result == FundState([], {}, b.spendable, false, false)
        else |run.answers| == |run.candidates|
             && run.result == FundFold(run.candidates, run.answers, f, run.stranded, b.spendable))
  }

  /** A channel is passed over as busy only if its slot was held when the pass began or was taken by the
      pass itself. */
  ghost predicate BusyForCause(answers: seq<CloseAnswer>, ids: seq<ChannelId>,
                               kinds: set<Kind>, s: SlotSet, now: nat, attempts: seq<Attempt>)
    requires |answers| == |ids|
  {
    forall i :: 0 <= i < |answers| && answers[i].busy ==> BusyId(ids[i], kinds, s, now, attempts)
  }

  ghost predicate BusyId(id: ChannelId, kinds: set<Kind>, s: SlotSet, now: nat, attempts: seq<Attempt>) {
    exists kind: Kind :: kind in kinds && (Live(TableOf(s, kind), Chan(id), now) || Took(attempts, kind, Chan(id)))
  }

  ghost predicate EachOnce(ids: seq<ChannelId>) { forall i, j :: 0 <= i < j < |ids| ==> ids[i] != ids[j] }

  ghost predicate CloseOutcome(cfg: Config, start: nat, open: seq<Channel>, openCount: nat,
                               streak: map<Address, nat>, seen: Reads, run: CloseRun)
  {
    && start <= run.at
    && run.guards == CloseGuards(cfg.lim.maxClosing, seen.perTickCap, openCount, cfg.minOpen,
                                 PhaseAt(run.at - start, cfg.observation, cfg.grace), KnownIds(open),
                                 Retirable(open, DownAtClosing(seen), streak, cfg.debounceTicks))
    && EachOnce(run.unranked)
    && (forall id :: id in run.unranked <==> id in run.guards.disconnected && id !in seen.closesRanked)
    && var listed := seen.closesRanked + run.unranked;
       |run.answers| == |listed|
       && run.result == CloseFold(listed, run.answers, run.guards, Held(run.slots.close, run.at))
       && BusyForCause(run.answers, listed, {FundTx, CloseTx}, run.slots, run.at, run.result.attempts)
  }

  ghost predicate ReclaimOutcome(cfg: Config, channels: seq<Channel>, deferred: set<ChannelId>,
                                 f: ResolvedFunding, b: Budget, phase: StartupPhase, seen: Reads, run: ReclaimRun)
  {
    && run.underfunded == Filter(Opened(channels), IsFree(deferred, run.slots, run.at))
    && run.reclaiming == Reclaiming(channels, run.slots, run.at)
    && run.closes == (if phase.Expired?
                      then Consolidation.ConsolidationCloses(Ranked(run.underfunded, seen.quality),
                                                             b.balance, run.reclaiming, f.face)
                      else [])
    && |run.answers| == |run.closes|
    && run.result == ReclaimFold(run.closes, run.answers, Held(run.slots.close, run.at), cfg.lim.maxClosing)
  }

  ghost predicate TopUpOutcome(open: seq<Channel>, deferred: set<ChannelId>, closes: seq<ChannelId>,
                               f: ResolvedFunding, budget: nat, run: TopUpRun)
  {
    && run.survivors == Survivors(open, deferred, closes, run.slots, run.at)
    && |run.answers| == |run.survivors|
    && run.result == TopUpFold(run.survivors, run.answers, f.face, budget)
  }

  ghost predicate FinalizeOutcome(cfg: Config, channels: seq<Channel>, seen: Reads, run: FinalizeRun) {
    && |run.answers| == |channels|
    && run.result == FinalizeFold(channels, run.answers, cfg.lim.maxFinalizing, seen.wallClock, cfg.overdue,
                                  Held(run.slots.finalize, run.at))
    && BusyForCause(run.answers, IdsOfChannels(channels), {FinalizeTx}, run.slots, run.at, run.result.attempts)
  }

  function IdsOfChannels(channels: seq<Channel>): (r: seq<ChannelId>)
    ensures |r| == |channels|
  {
    seq(|channels|, i requires 0 <= i < |channels| => channels[i].id)
  }

  ghost predicate OpenOutcome(deficit: nat, f: ResolvedFunding, budget: nat, seen: Reads, run: OpenRun) {
    && run.addrs == seen.opensRanked[..Min(deficit, |seen.opensRanked|)]
    && |run.answers| == |run.addrs|
    && run.result == OpenFold(run.addrs, Reread(run.addrs, seen.reread), run.answers, f, budget)
  }

  // ---------------------------------------------------------------------------------------------
  // The report of a whole tick
  // ---------------------------------------------------------------------------------------------

  /** One tick; a pass that was skipped reports nothing. */
  datatype Report = Report(
    slots: SlotSet, at: nat, openCount: nat, funding: Option<ResolvedFunding>, phaseAt: nat, phase: StartupPhase,
    fund: Option<FundRun>, close: Option<CloseRun>, reclaim: Option<ReclaimRun>, topup: Option<TopUpRun>,
    finalize: Option<FinalizeRun>, open: Option<OpenRun>)

  function FundAttempts(r: Report): seq<Attempt> { if r.fund.Some? then r.fund.value.result.attempts else [] }

  function CloseAttempts(r: Report): seq<Attempt> { if r.close.Some? then r.close.value.result.attempts else [] }

  function ReclaimAttempts(r: Report): seq<Attempt> { if r.reclaim.Some? then r.reclaim.value.result.attempts else [] }

  function TopUpAttempts(r: Report): seq<Attempt> { if r.topup.Some? then r.topup.value.result.attempts else [] }

  function FinalizeAttempts(r: Report): seq<Attempt> {
    if r.finalize.Some? then r.finalize.value.result.attempts else []
  }

  function OpenAttempts(r: Report): seq<Attempt> { if r.open.Some? then r.open.value.result.attempts else [] }

  /** Everything the tick asked for, in the order in which it asked. */
  function AllAttempts(r: Report): seq<Attempt> {
    FundAttempts(r) + CloseAttempts(r) + ReclaimAttempts(r) + TopUpAttempts(r) + FinalizeAttempts(r) + OpenAttempts(r)
  }

  /** What the passes share to spend: nothing when the Safe is unknown. */
  function Spendable(seen: Reads): nat {
    var b := SafeBudget(seen.safe);
    if b.Some? then b.value.spendable else 0
  }

  function BudgetAfterFunding(seen: Reads, r: Report): nat {
    if r.fund.Some? then r.fund.value.result.budget else Spendable(seen)
  }

  function BudgetAfterTopUps(seen: Reads, r: Report): nat {
    if r.topup.Some? then r.topup.value.result.budget else BudgetAfterFunding(seen, r)
  }

  function Remaining(seen: Reads, r: Report): nat {
    if r.open.Some? then r.open.value.result.budget else BudgetAfterTopUps(seen, r)
  }

  function Deferred(r: Report): set<ChannelId> { if r.fund.Some? then r.fund.value.result.deferred else {} }

  function Deficit(cfg: Config, r: Report): nat { SatSub(cfg.targetOpen, r.openCount) }

  ghost predicate FundPart(cfg: Config, channels: seq<Channel>, seen: Reads, r: Report)
  {
    var f, b := r.funding, SafeBudget(seen.safe);
    && (r.fund.Some? <==> f.Some? && b.Some?)
    && (r.fund.Some? ==> FundOutcome(cfg, Opened(channels), r.openCount, f.value, b.value, seen, r.fund.value))
  }

  ghost predicate ClosePart(cfg: Config, start: nat, channels: seq<Channel>, streak: map<Address, nat>, seen: Reads,
                            r: Report) {
    && start <= r.phaseAt && r.phase == PhaseAt(r.phaseAt - start, cfg.observation, cfg.grace)
    && (r.close.Some? <==> r.phase != Observing)
    && (r.close.Some? ==>
          CloseOutcome(cfg, start, Opened(channels), r.openCount, streak, seen, r.close.value)
          && r.close.value.guards.phase == r.phase)
  }

  ghost predicate ReclaimPart(cfg: Config, channels: seq<Channel>, seen: Reads, r: Report)
    requires FundPart(cfg, channels, seen, r)
  {
    && (r.reclaim.Some? <==> r.fund.Some? && r.funding.value.face > 0 && Deferred(r) != {})
    && (r.reclaim.Some? ==>
          ReclaimOutcome(cfg, channels, Deferred(r), r.funding.value, SafeBudget(seen.safe).value, r.phase, seen,
                         r.reclaim.value))
    && (r.topup.Some? <==> r.reclaim.Some? && r.reclaim.value.underfunded != [])
    && (r.topup.Some? ==>
          TopUpOutcome(Opened(channels), Deferred(r), r.reclaim.value.closes, r.funding.value,
                       BudgetAfterFunding(seen, r), r.topup.value))
  }

  ghost predicate FinalizePart(cfg: Config, channels: seq<Channel>, seen: Reads, r: Report) {
    && (r.finalize.Some? <==> cfg.finalizerEnabled)
    && (r.finalize.Some? ==> FinalizeOutcome(cfg, channels, seen, r.finalize.value))
  }

  ghost predicate OpenPart(cfg: Config, seen: Reads, r: Report)
  {
    var f := r.funding;
    && (r.open.Some? <==>
          Deficit(cfg, r) > 0 && seen.peers.Some? && f.Some? && SafeBudget(seen.safe).Some? && f.value.initial > 0)
    && (r.open.Some? ==> OpenOutcome(Deficit(cfg, r), f.value, BudgetAfterTopUps(seen, r), seen, r.open.value))
  }

  /** What a tick that could read the channel list has done. `streak` is the one this tick arrived at. */
  ghost predicate TickOutcome(cfg: Config, start: nat, channels: seq<Channel>,
                              streak: map<Address, nat>, seen: Reads, r: Report)
  {
    && r.openCount == |Opened(channels)| + Held(r.slots.open, r.at)
    && FundPart(cfg, channels, seen, r)
    && ClosePart(cfg, start, channels, streak, seen, r)
    && ReclaimPart(cfg, channels, seen, r)
    && FinalizePart(cfg, channels, seen, r)
    && OpenPart(cfg, seen, r)
  }

  /** The passes follow one another: each found the slots as its predecessors, the environment and time
      had left them. */
  ghost predicate InOrder(s: SlotSet, t: nat, r: Report, lim: Limits) {
    && Ran(s, t, [], r.slots, r.at, lim)
    && (r.fund.Some? ==> Ran(s, t, [], r.fund.value.slots, r.fund.value.at, lim))
    && r.at <= r.phaseAt
    && (r.close.Some? ==> Ran(s, t, FundAttempts(r), r.close.value.slots, r.close.value.at, lim))
    && (r.reclaim.Some? ==>
          Ran(s, t, FundAttempts(r) + CloseAttempts(r), r.reclaim.value.slots, r.reclaim.value.at, lim))
    && (r.topup.Some? ==>
          Ran(s, t, FundAttempts(r) + CloseAttempts(r) + ReclaimAttempts(r),
              r.topup.value.slots, r.topup.value.at, lim))
    && (r.finalize.Some? ==>
          Ran(s, t, FundAttempts(r) + CloseAttempts(r) + ReclaimAttempts(r) + TopUpAttempts(r),
              r.finalize.value.slots, r.finalize.value.at, lim))
    && (r.open.Some? ==>
          Ran(s, t, FundAttempts(r) + CloseAttempts(r) + ReclaimAttempts(r) + TopUpAttempts(r) + FinalizeAttempts(r),
              r.open.value.slots, r.open.value.at, lim))
  }

  lemma FundingWasKnown(cfg: Config, channels: seq<Channel>, seen: Reads, r: Report)
    requires FundPart(cfg, channels, seen, r) && r.fund.Some?
    ensures r.funding.Some? && SafeBudget(seen.safe).Some?
  {}

  // ---------------------------------------------------------------------------------------------
  // The money
  // ---------------------------------------------------------------------------------------------

  lemma FundConserves(cfg: Config, channels: seq<Channel>, seen: Reads, r: Report)
    requires FundPart(cfg, channels, seen, r)
    ensures BudgetAfterFunding(seen, r) + Spent(FundAttempts(r)) == Spendable(seen)
  {
    if r.fund.Some? {
      var f := r.funding.value;
      var run := r.fund.value;
      if f.topup > 0 && f.face > 0 {
        FundPassConserves(run.candidates, run.answers, f, run.stranded, Spendable(seen));
      }
    }
  }

  lemma TopUpsConserve(cfg: Config, channels: seq<Channel>, seen: Reads, r: Report)
    requires FundPart(cfg, channels, seen, r) && ReclaimPart(cfg, channels, seen, r)
    ensures Spent(ReclaimAttempts(r)) == 0
    ensures BudgetAfterTopUps(seen, r) + Spent(TopUpAttempts(r)) == BudgetAfterFunding(seen, r)
  {
    hide Spent, FundOutcome;
    if r.fund.Some? {
      FundingWasKnown(cfg, channels, seen, r);
    }
    if r.reclaim.Some? {
      var run := r.reclaim.value;
      ReclaimRespectsTheCap(run.closes, run.answers, Held(run.slots.close, run.at), cfg.lim.maxClosing);
    }
    if r.topup.Some? {
      var run := r.topup.value;
      TopUpConserves(run.survivors, run.answers, r.funding.value.face, BudgetAfterFunding(seen, r));
    }
    NothingSpent();
  }

  lemma NothingSpent()
    ensures Spent([]) == 0
  {}

  /** A tick never overspends: what its fund, consolidation and open passes committed, the open pass's
      redirect included, and what is left of the budget add up to what a transaction could move of the
      Safe when the tick began. */
  lemma TickNeverOverspends(cfg: Config, start: nat, channels: seq<Channel>,
                            streak: map<Address, nat>, seen: Reads, r: Report)
    requires TickOutcome(cfg, start, channels, streak, seen, r)
    ensures match seen.safe
            case Some(Registered(balance, allowance)) =>
              Remaining(seen, r) + Spent(AllAttempts(r)) == if balance <= allowance then balance else allowance
            case _ => Remaining(seen, r) == Spent(AllAttempts(r)) == 0
  {
    hide Spent, FundOutcome, CloseOutcome, ReclaimOutcome, TopUpOutcome, FinalizeOutcome;
    FundConserves(cfg, channels, seen, r);
    TopUpsConserve(cfg, channels, seen, r);
    NothingSpent();
    if r.close.Some? {
      ClosesSpendNothing(cfg, start, Opened(channels), r.openCount, streak, seen, r.close.value);
    }
    if r.finalize.Some? {
      FinalizesSpendNothing(cfg, channels, seen, r.finalize.value);
    }
    if r.open.Some? {
      var run := r.open.value;
      OpenPassConserves(run.addrs, Reread(run.addrs, seen.reread), run.answers, r.funding.value,
                        BudgetAfterTopUps(seen, r));
    }
    SpentInAll(r);
  }

  lemma ClosesSpendNothing(cfg: Config, start: nat, open: seq<Channel>, openCount: nat,
                           streak: map<Address, nat>, seen: Reads, run: CloseRun)
    requires CloseOutcome(cfg, start, open, openCount, streak, seen, run)
    ensures Spent(run.result.attempts) == 0
  {
    ClosePassIsGuarded(seen.closesRanked + run.unranked, run.answers, run.guards, Held(run.slots.close, run.at));
  }

  lemma FinalizesSpendNothing(cfg: Config, channels: seq<Channel>, seen: Reads, run: FinalizeRun)
    requires FinalizeOutcome(cfg, channels, seen, run)
    ensures Spent(run.result.attempts) == 0
  {
    FinalizePassIsGuarded(channels, run.answers, cfg.lim.maxFinalizing, seen.wallClock, cfg.overdue,
                          Held(run.slots.finalize, run.at));
  }

  lemma SpentInAll(r: Report)
    ensures Spent(AllAttempts(r))
         == Spent(FundAttempts(r)) + Spent(CloseAttempts(r)) + Spent(ReclaimAttempts(r)) + Spent(TopUpAttempts(r))
            + Spent(FinalizeAttempts(r)) + Spent(OpenAttempts(r))
  {
    hide Spent, FundAttempts, CloseAttempts, ReclaimAttempts, TopUpAttempts, FinalizeAttempts, OpenAttempts;
    var a, b, c, d, e := FundAttempts(r), CloseAttempts(r), ReclaimAttempts(r), TopUpAttempts(r), FinalizeAttempts(r);
    SpentAppend(a, b);
    SpentAppend(a + b, c);
    SpentAppend(a + b + c, d);
    SpentAppend(a + b + c + d, e);
    SpentAppend(a + b + c + d + e, OpenAttempts(r));
  }

  // ---------------------------------------------------------------------------------------------
  // The guards of the regular close pass
  // ---------------------------------------------------------------------------------------------

  /** While observing nothing is closed; consolidation closes only once the startup guard has expired. */
  lemma StartupGuard(cfg: Config, start: nat, channels: seq<Channel>, streak: map<Address, nat>, seen: Reads, r: Report)
    requires TickOutcome(cfg, start, channels, streak, seen, r)
    ensures r.phase.Observing? ==> CloseAttempts(r) == [] && ReclaimAttempts(r) == []
    ensures !r.phase.Expired? ==> ReclaimAttempts(r) == []
  {
    hide FundPart, FinalizePart, OpenPart, CloseOutcome, TopUpOutcome, Reclaiming;
    if r.reclaim.Some? {
      var run := r.reclaim.value;
      ReclaimRespectsTheCap(run.closes, run.answers, Held(run.slots.close, run.at), cfg.lim.maxClosing);
    }
  }

  /** The regular close pass never takes the counted population below its floor, nor the closures in
      flight above their cap, nor its own total above the selector's cap per tick. */
  lemma PopulationFloorKept(cfg: Config, start: nat, channels: seq<Channel>,
                            streak: map<Address, nat>, seen: Reads, r: Report)
    requires TickOutcome(cfg, start, channels, streak, seen, r)
    requires AcceptedCount(CloseAttempts(r)) > 0
    ensures var inFlight := Held(r.close.value.slots.close, r.close.value.at) + AcceptedCount(CloseAttempts(r));
            r.openCount - inFlight >= cfg.minOpen && inFlight <= cfg.lim.maxClosing
    ensures seen.perTickCap.Some? ==> AcceptedCount(CloseAttempts(r)) <= seen.perTickCap.value
  {
    assert r.close.Some?;
    hide FundPart, FinalizePart, OpenPart, ReclaimPart, Spent, AcceptedCount, Held;
    var run := r.close.value;
    ClosePassIsGuarded(seen.closesRanked + run.unranked, run.answers, run.guards, Held(run.slots.close, run.at));
  }

  /** The peer of `id` was seen with an open channel and disconnected in each of the last `n` ticks. */
  ghost predicate DownLately(channels: seq<Channel>, id: ChannelId, history: seq<Sighting>, n: nat) {
    exists k :: 0 <= k < |channels| && channels[k].id == id && channels[k].status.Open? && n <= |history|
      && forall i :: |history| - n <= i < |history| ==> DownAt(history, i, channels[k].destination)
  }

  lemma RetirableIsDown(channels: seq<Channel>, down: set<Address>,
                        history: seq<Sighting>, debounce: nat, id: ChannelId)
    requires id in Retirable(Opened(channels), down, StreakAfter(history), debounce)
    ensures DownLately(channels, id, history, Max(debounce, 1))
  {
    var c :| c in Opened(channels) && c.id == id && StreakOf(StreakAfter(history), c.destination) >= Max(debounce, 1);
    assert c in channels && IS_OPEN(c);
    var k :| 0 <= k < |channels| && channels[k] == c;
    StreakIsRunLength(history, c.destination);
  }

  /** While connected peers are shielded, every closure asked for is of a channel whose peer has been
      disconnected in each of the last `debounceTicks` evaluated ticks. */
  lemma ShieldedClosesAreDebounced(cfg: Config, start: nat, channels: seq<Channel>,
                                   history: seq<Sighting>, seen: Reads, r: Report, i: nat)
    requires TickOutcome(cfg, start, channels, StreakAfter(history), seen, r)
    requires r.phase.ShieldingConnected? && i < |CloseAttempts(r)|
    ensures CloseAttempts(r)[i].kind == CloseTx && CloseAttempts(r)[i].key.Chan?
    ensures DownLately(channels, CloseAttempts(r)[i].key.id, history, Max(cfg.debounceTicks, 1))
  {
    hide FundPart, FinalizePart, OpenPart, ReclaimPart, Spent, AcceptedCount, Held, StreakAfter, Retirable, DownLately;
    var run := r.close.value;
    ClosePassIsGuarded(seen.closesRanked + run.unranked, run.answers, run.guards, Held(run.slots.close, run.at));
    assert ClosesOneOf(CloseAttempts(r)[i], seen.closesRanked + run.unranked, run.guards);
    RetirableIsDown(channels, DownAtClosing(seen), history, cfg.debounceTicks, CloseAttempts(r)[i].key.id);
  }

  // ---------------------------------------------------------------------------------------------
  // Consolidation inside a tick
  // ---------------------------------------------------------------------------------------------

  lemma SameIdSameChannel(channels: seq<Channel>, a: Channel, b: Channel)
    requires Distinct(channels) && a in channels && b in channels && a.id == b.id
    ensures a == b
  {
    var i :| 0 <= i < |channels| && channels[i] == a;
    var j :| 0 <= j < |channels| && channels[j] == b;
    assert !(i < j) && !(j < i);
  }

  /** What the fund pass hands over: only under-funded channels, and only of a stranded Safe. */
  lemma DeferredBelowFace(cfg: Config, channels: seq<Channel>, seen: Reads, r: Report, c: Channel)
    requires FundPart(cfg, channels, seen, r) && Distinct(channels)
    requires c in channels && c.id in Deferred(r)
    ensures r.fund.value.stranded && c.balance < r.funding.value.face
  {
    var run, f := r.fund.value, r.funding.value;
    hide RequiredSafeBalance, FundFold, FundCandidates;
    var cands := run.candidates;
    FundPassTargets(cands, run.answers, f, run.stranded, Spendable(seen));
    assert AllDeferred(run.result.deferred, cands, IsDeferred(f, run.stranded));
    var i :| 0 <= i < |cands| && cands[i].id == c.id && IsDeferred(f, run.stranded)(cands[i]);
    assert cands[i] in cands;
    CandidatesAreChannels(cfg, channels, run.slots, run.at, f, seen, cands[i]);
    SameIdSameChannel(channels, c, cands[i]);
  }

  lemma CandidatesAreChannels(cfg: Config, channels: seq<Channel>, s: SlotSet,
                              now: nat, f: ResolvedFunding, seen: Reads, c: Channel)
    ensures c in FundCandidates(cfg, Opened(channels), s, now, f, seen) <==>
            c in channels && c.status.Open? && NeedsFunds(cfg, s, now, f, seen)(c)
  {
    var needy := Filter(Opened(channels), NeedsFunds(cfg, s, now, f, seen));
    StableSortSorts(needy, BY_BALANCE);
    assert IS_OPEN(c) <==> c.status.Open?;
  }

  /** The channel attempted is one the fund pass handed over from a stranded Safe, below face value and
      in neither a funding nor a closing transaction when the pass looked. */
  ghost predicate Rescuable(a: Attempt, channels: seq<Channel>, s: SlotSet, now: nat, face: nat) {
    exists c :: c in channels && a.key == Chan(c.id) && c.status.Open? && c.balance < face
      && !Live(s.fund, Chan(c.id), now) && !Live(s.close, Chan(c.id), now)
      && (a.kind == FundTx ==> c.balance + a.amount == face)
  }

  lemma IdsOfRanked(cs: seq<Channel>, quality: map<ChannelId, real>,
                    id: ChannelId, safe: nat, reclaiming: nat, face: nat)
    requires id in Consolidation.ConsolidationCloses(Ranked(cs, quality), safe, reclaiming, face)
    ensures exists c :: c in cs && c.id == id
  {
    hide Common.Insert;
    var under := Ranked(cs, quality);
    var sorted := StableSort(under, Consolidation.RANK);
    StableSortSorts(under, Consolidation.RANK);
    var closes := Consolidation.ConsolidationCloses(under, safe, reclaiming, face);
    Consolidation.IdsAt(sorted[..|closes|]);
    var i :| 0 <= i < |closes| && closes[i] == id;
    assert sorted[i] in sorted;
    assert sorted[i] in under;
    var j :| 0 <= j < |under| && under[j] == sorted[i];
    assert cs[j] in cs;
  }

  /** Consolidation closes only channels below face value that no other transaction is working on. */
  lemma ReclaimsBelowFace(cfg: Config, start: nat, channels: seq<Channel>,
                          streak: map<Address, nat>, seen: Reads, r: Report, i: nat)
    requires TickOutcome(cfg, start, channels, streak, seen, r) && Distinct(channels)
    requires i < |ReclaimAttempts(r)|
    ensures r.fund.value.stranded && ReclaimAttempts(r)[i].kind == CloseTx
    ensures Rescuable(ReclaimAttempts(r)[i], channels, r.reclaim.value.slots, r.reclaim.value.at, r.funding.value.face)
  {
    hide FundPart, FinalizePart, OpenPart, ClosePart, Spent, AcceptedCount, Held, Reclaiming, TopUpOutcome, Live;
    FundingWasKnown(cfg, channels, seen, r);
    var run := r.reclaim.value;
    var a := ReclaimAttempts(r)[i];
    ReclaimRespectsTheCap(run.closes, run.answers, Held(run.slots.close, run.at), cfg.lim.maxClosing);
    assert a.kind == CloseTx && a.key == Chan(run.closes[i]);
    assert run.closes[i] in run.closes;
    IdsOfRanked(run.underfunded, seen.quality, run.closes[i], SafeBudget(seen.safe).value.balance, run.reclaiming,
                r.funding.value.face);
    var c :| c in run.underfunded && c.id == run.closes[i];
    assert c in Opened(channels) && IsFree(Deferred(r), run.slots, run.at)(c);
    assert IS_OPEN(c);
    DeferredBelowFace(cfg, channels, seen, r, c);
  }

  lemma SurvivorsAreChannels(channels: seq<Channel>, deferred: set<ChannelId>,
                             closes: seq<ChannelId>, s: SlotSet, now: nat, c: Channel)
    ensures c in Survivors(Opened(channels), deferred, closes, s, now) <==>
            c in channels && c.status.Open? && c.id in deferred && c.id !in closes
            && !Live(s.fund, Chan(c.id), now) && !Live(s.close, Chan(c.id), now)
  {
    hide Live;
    assert IsSurvivor(deferred, closes, s, now)(c) <==> IsFree(deferred, s, now)(c) && c.id !in closes;
    StableSortSorts(Filter(Opened(channels), IsSurvivor(deferred, closes, s, now)), BY_BALANCE_DESC);
    assert IS_OPEN(c) <==> c.status.Open?;
  }

  /** Consolidation raises channels below face value to exactly face value, never one it is closing. */
  lemma TopUpsReachFace(cfg: Config, start: nat, channels: seq<Channel>,
                        streak: map<Address, nat>, seen: Reads, r: Report, i: nat)
    requires TickOutcome(cfg, start, channels, streak, seen, r) && Distinct(channels)
    requires i < |TopUpAttempts(r)|
    ensures r.fund.value.stranded && TopUpAttempts(r)[i].kind == FundTx
    ensures TopUpAttempts(r)[i].key.Chan? && TopUpAttempts(r)[i].key.id !in r.reclaim.value.closes
    ensures Rescuable(TopUpAttempts(r)[i], channels, r.topup.value.slots, r.topup.value.at, r.funding.value.face)
  {
    hide FundPart, FinalizePart, OpenPart, ClosePart, ReclaimOutcome, Spent, AcceptedCount, Survivors, Live;
    FundingWasKnown(cfg, channels, seen, r);
    var run, face := r.topup.value, r.funding.value.face;
    var a := TopUpAttempts(r)[i];
    TopUpConserves(run.survivors, run.answers, face, BudgetAfterFunding(seen, r));
    assert RaisesOneOf(a, run.survivors, face);
    var m :| 0 <= m < |run.survivors| && a.key == Chan(run.survivors[m].id)
             && run.survivors[m].balance + a.amount == face;
    var c := run.survivors[m];
    assert c in run.survivors;
    SurvivorsAreChannels(channels, Deferred(r), r.reclaim.value.closes, run.slots, run.at, c);
    DeferredBelowFace(cfg, channels, seen, r, c);
  }

  lemma FilterKeepsDistinct(channels: seq<Channel>, keep: Channel -> bool)
    requires Distinct(channels)
    ensures Distinct(Filter(channels, keep))
  {
    if channels != [] {
      var front, last := channels[..|channels| - 1], channels[|channels| - 1];
      assert Distinct(front);
      FilterKeepsDistinct(front, keep);
      LastOfFilter(channels, keep);
      var kept := Filter(front, keep);
      forall i | 0 <= i < |kept| ensures kept[i].id != last.id && kept[i].destination != last.destination {
        assert kept[i] in kept;
        assert kept[i] in front;
      }
    }
  }

  lemma UnderfundedPremises(cfg: Config, channels: seq<Channel>, seen: Reads, r: Report)
    requires FundPart(cfg, channels, seen, r) && ReclaimPart(cfg, channels, seen, r) && Distinct(channels)
    requires r.reclaim.Some?
    ensures var under := Ranked(r.reclaim.value.underfunded, seen.quality);
            Consolidation.DistinctIds(under) && Consolidation.AllBelow(under, r.funding.value.face)
  {
    hide FundPart, TopUpOutcome, Reclaiming;
    FundingWasKnown(cfg, channels, seen, r);
    var run, face := r.reclaim.value, r.funding.value.face;
    FilterKeepsDistinct(channels, IS_OPEN);
    FilterKeepsDistinct(Opened(channels), IsFree(Deferred(r), run.slots, run.at));
    var under := Ranked(run.underfunded, seen.quality);
    forall c | c in under ensures c.balance < face {
      var i :| 0 <= i < |under| && under[i] == c;
      assert run.underfunded[i] in run.underfunded;
      assert run.underfunded[i] in Opened(channels);
      DeferredBelowFace(cfg, channels, seen, r, run.underfunded[i]);
    }
  }

  /** The decision is applied where it is optimal: its candidates are distinct and below face value, so
      a non-empty answer keeps as many of them as any affordable choice could. */
  lemma ConsolidationIsOptimalHere(cfg: Config, start: nat, channels: seq<Channel>,
                                   streak: map<Address, nat>, seen: Reads, r: Report)
    requires TickOutcome(cfg, start, channels, streak, seen, r) && Distinct(channels)
    requires r.reclaim.Some? && r.reclaim.value.closes != []
    ensures var under := Ranked(r.reclaim.value.underfunded, seen.quality);
            var safe, back := SafeBudget(seen.safe).value.balance, r.reclaim.value.reclaiming;
            var face := r.funding.value.face;
            var gone := Consolidation.IdSet(r.reclaim.value.closes);
            var kept := Consolidation.Others(under, gone);
            && face > 0 && Consolidation.AllBelow(under, face)
            && Consolidation.CostToFace(kept, face)
               <= safe + back + Consolidation.Stake(Consolidation.Named(under, gone))
            && forall other: set<ChannelId> :: Consolidation.Sustainable(under, other, safe, back, face) ==>
                 |Consolidation.Named(under, other)| <= |kept|
  {
    var run, face := r.reclaim.value, r.funding.value.face;
    var under := Ranked(run.underfunded, seen.quality);
    UnderfundedPremises(cfg, channels, seen, r);
    Consolidation.ClosesAreOptimal(under, SafeBudget(seen.safe).value.balance, run.reclaiming, face);
  }

  lemma SurvivorsBelowFace(cfg: Config, channels: seq<Channel>, seen: Reads, r: Report)
    requires FundPart(cfg, channels, seen, r) && ReclaimPart(cfg, channels, seen, r) && Distinct(channels)
    requires r.topup.Some?
    ensures Sorted(r.topup.value.survivors, BY_BALANCE_DESC)
    ensures forall i :: 0 <= i < |r.topup.value.survivors| ==> r.topup.value.survivors[i].balance < r.funding.value.face
  {
    hide FundPart, ReclaimOutcome, TopUpFold, Sorted, Filter;
    FundingWasKnown(cfg, channels, seen, r);
    var run, closes := r.topup.value, r.reclaim.value.closes;
    StableSortSorts(Filter(Opened(channels), IsSurvivor(Deferred(r), closes, run.slots, run.at)), BY_BALANCE_DESC);
    forall i | 0 <= i < |run.survivors| ensures run.survivors[i].balance < r.funding.value.face {
      assert run.survivors[i] in run.survivors;
      SurvivorsAreChannels(channels, Deferred(r), closes, run.slots, run.at, run.survivors[i]);
      DeferredBelowFace(cfg, channels, seen, r, run.survivors[i]);
    }
  }

  /** Among the survivors whose top-up was not refused, no other choice the same budget could pay for would
      have made more of them usable; if every attempt was accepted, that is all of them, however early
      the walk stopped. */
  lemma TopUpsAreMaximalHere(cfg: Config, start: nat, channels: seq<Channel>, streak: map<Address, nat>,
                             seen: Reads, r: Report, chosen: Channel -> bool)
    requires TickOutcome(cfg, start, channels, streak, seen, r) && Distinct(channels) && r.topup.Some?
    ensures var run, face := r.topup.value, r.funding.value.face;
            var rest := Unrefused(run.survivors, run.answers, face, BudgetAfterFunding(seen, r));
            && (TotalMissing(Filter(rest, chosen), face) <= BudgetAfterFunding(seen, r) ==>
                  |Filter(rest, chosen)| <= AcceptedCount(TopUpAttempts(r)))
            && (AllAccepted(TopUpAttempts(r)) ==> rest == run.survivors)
  {
    hide FundPart, FinalizePart, OpenPart, ClosePart, ReclaimOutcome, Spent, AcceptedCount, TotalMissing, TopUpFold,
      Filter, Sorted, Survivors, Unrefused;
    FundingWasKnown(cfg, channels, seen, r);
    var run, face := r.topup.value, r.funding.value.face;
    SurvivorsBelowFace(cfg, channels, seen, r);
    TopUpIsMaximal(run.survivors, run.answers, face, BudgetAfterFunding(seen, r), chosen);
  }

  // ---------------------------------------------------------------------------------------------
  // Amounts, finalization and the published state
  // ---------------------------------------------------------------------------------------------

  /** Every amount of the fund pass is a whole number of tickets, or the largest representable one. */
  lemma FundedAmountsAreWhole(cfg: Config, start: nat, channels: seq<Channel>,
                              streak: map<Address, nat>, seen: Reads, r: Report, i: nat)
    requires ValidConfig(cfg) && r.funding == Funding(cfg, seen)
    requires TickOutcome(cfg, start, channels, streak, seen, r) && i < |FundAttempts(r)|
    ensures WholeOrSaturated(FundAttempts(r)[i].amount, r.funding.value.face)
    ensures FundAttempts(r)[i].amount > 0
  {
    hide ClosePart, FinalizePart, OpenPart, ReclaimPart, Spent, FundCandidates, RequiredSafeBalance, Resolve,
      WholeOrSaturated, FundAmount, FundFold;
    FundingWasKnown(cfg, channels, seen, r);
    var run, f := r.fund.value, r.funding.value;
    var e := seen.economics.value;
    ResolvedAmountsAreWhole(cfg.funding, cfg.payload, e.price, e.winProb, cfg.hops, cfg.snap);
    FundPassConserves(run.candidates, run.answers, f, run.stranded, Spendable(seen));
    AmountIsWhole(f, Spendable(seen) - Spent(FundAttempts(r)[..i]));
  }

  lemma AmountIsWhole(f: ResolvedFunding, safe: nat)
    requires f.face > 0 && WholeOrSaturated(f.topup, f.face)
    ensures WholeOrSaturated(FundAmount(safe, f), f.face)
  {
    FundAmountIsLargestWhole(safe, f);
  }

  /** Only channels of this node whose notice period ended long enough ago are finalized. */
  lemma FinalizesOnlyOverdue(cfg: Config, start: nat, channels: seq<Channel>,
                             streak: map<Address, nat>, seen: Reads, r: Report, i: nat)
    requires TickOutcome(cfg, start, channels, streak, seen, r) && i < |FinalizeAttempts(r)|
    ensures AsksFor(FinalizeAttempts(r)[i], FinalizeTx, channels, IsOverdue(seen.wallClock, cfg.overdue))
  {
    hide ClosePart, FundPart, OpenPart, ReclaimPart, Spent, AsksFor, AcceptedCount;
    var run := r.finalize.value;
    FinalizePassIsGuarded(channels, run.answers, cfg.lim.maxFinalizing, seen.wallClock, cfg.overdue,
                          Held(run.slots.finalize, run.at));
  }

  datatype Severity = Running | Degraded | Failed

  function Worse(a: Severity, b: Severity): Severity {
    if a.Failed? || b.Failed? then Failed else if a.Degraded? || b.Degraded? then Degraded else Running
  }

  /** A read that a pass cannot do without was unavailable. */
  predicate Blind(cfg: Config, seen: Reads, r: Report) {
    r.funding.None? || seen.safe.None? || (Deficit(cfg, r) > 0 && seen.peers.None?)
  }

  /** Some pass could do less than was needed. */
  predicate Short(channels: seq<Channel>, seen: Reads, r: Report) {
    || (r.fund.Some? && r.fund.value.result.short)
    || (r.close.Some? && seen.peers.None? && Opened(channels) != [])
    || AcceptedCount(ReclaimAttempts(r)) > 0
    || (r.topup.Some? && r.topup.value.result.short)
    || (r.open.Some? && r.open.value.result.short)
  }

  function SeverityOf(cfg: Config, channels: seq<Channel>, seen: Reads, r: Report): Severity {
    if Blind(cfg, seen, r) then Failed else if Short(channels, seen, r) then Degraded else Running
  }

  function FundVerdict(r: Report): Severity {
    if r.fund.None? then Failed else if r.fund.value.result.short then Degraded else Running
  }

  function CloseVerdict(channels: seq<Channel>, seen: Reads, r: Report): Severity {
    if r.close.Some? && seen.peers.None? && Opened(channels) != [] then Degraded else Running
  }

  function ConsolidationVerdict(r: Report): Severity {
    if AcceptedCount(ReclaimAttempts(r)) > 0 || (r.topup.Some? && r.topup.value.result.short) then Degraded else Running
  }

  function OpenVerdict(cfg: Config, seen: Reads, r: Report): Severity {
    if Deficit(cfg, r) > 0 && seen.peers.None? then Failed
    else if r.open.Some? && r.open.value.result.short then Degraded
    else Running
  }

  /** No pass's verdict masks another's: taking the worse of each in turn, the tick ends `Failed` exactly
      when a read some pass cannot do without was missing, and `Running` exactly when nothing fell short. */
  lemma VerdictsAddUp(cfg: Config, start: nat, channels: seq<Channel>,
                      streak: map<Address, nat>, seen: Reads, r: Report)
    requires TickOutcome(cfg, start, channels, streak, seen, r)
    ensures Worse(Worse(Worse(Worse(Running, FundVerdict(r)), CloseVerdict(channels, seen, r)),
              ConsolidationVerdict(r)),
                  OpenVerdict(cfg, seen, r))
         == SeverityOf(cfg, channels, seen, r)
  {
    hide ClosePart, ReclaimPart, FinalizePart, OpenPart, FundOutcome, AcceptedCount, Resolve, Filter;
  }

  /** Each part of the outcome looks only at its own passes and at those it builds on. */
  lemma PartsKept(cfg: Config, start: nat, channels: seq<Channel>,
                  streak: map<Address, nat>, seen: Reads, r: Report, r': Report)
    requires r.openCount == r'.openCount && r.funding == r'.funding && r.fund == r'.fund
    ensures FundPart(cfg, channels, seen, r) ==> FundPart(cfg, channels, seen, r')
    ensures (r.close == r'.close && r.phase == r'.phase && r.phaseAt == r'.phaseAt
             && ClosePart(cfg, start, channels, streak, seen, r)) ==> ClosePart(cfg, start, channels, streak, seen, r')
    ensures (r.phase == r'.phase && r.reclaim == r'.reclaim && r.topup == r'.topup && FundPart(cfg, channels, seen, r)
             && ReclaimPart(cfg, channels, seen, r)) ==> ReclaimPart(cfg, channels, seen, r')
    ensures r.finalize == r'.finalize && FinalizePart(cfg, channels, seen, r) ==> FinalizePart(cfg, channels, seen, r')
  {
    hide FundOutcome, CloseOutcome, ReclaimOutcome, TopUpOutcome, FinalizeOutcome, PhaseAt;
  }
}
