/**
 What a tick does, pass by pass, said of the channels, the reads, the configuration and the slots alone.
 */
module TickEffects {
  import opened Common
  import opened Sizing
  import opened Leases
  import opened Passes
  import opened Walks
  import opened Slots
  import opened Ticks
  import Consolidation

  // ---------------------------------------------------------------------------------------------
  // Fund pass
  // ---------------------------------------------------------------------------------------------

  /** The worklist of the fund pass: exactly the open channels with neither a funding nor a closing transaction in
      flight, at or below the threshold or draining fast, and not left to be retired. One is left to be retired at or
      below the drain floor, except that with a floor of zero it is kept for a peer that is connected or active.
      Each is listed once, the lowest balance first. */
  lemma FundsTheNeedy(cfg: Config, start: nat, channels: seq<Channel>, streak: map<Address, nat>, seen: Reads,
                      r: Report)
    requires TickOutcome(cfg, start, channels, streak, seen, r) && r.fund.Some?
    ensures forall c :: c in r.fund.value.candidates <==>
              && c in channels && c.status.Open?
              && !Live(r.fund.value.slots.fund, Chan(c.id), r.fund.value.at)
              && !Live(r.fund.value.slots.close, Chan(c.id), r.fund.value.at)
              && (|| c.balance > cfg.drainedBelow
                  || (&& cfg.drainedBelow == 0
                      && (|| seen.peers.None? || c.destination !in seen.peers.value.downAtFunding
                          || c.destination in seen.active)))
              && (c.balance <= r.funding.value.lowerThreshold || c.id in seen.proactive)
    ensures forall i, j :: 0 <= i < j < |r.fund.value.candidates| ==>
              r.fund.value.candidates[i].balance <= r.fund.value.candidates[j].balance
    ensures Distinct(channels) ==> Distinct(r.fund.value.candidates)
  {
    hide FundFold, RequiredSafeBalance, ClosePart, ReclaimPart, FinalizePart, OpenPart;
    var run, f := r.fund.value, r.funding.value;
    var needy := Filter(Opened(channels), NeedsFunds(cfg, run.slots, run.at, f, seen));
    forall c
      ensures c in run.candidates <==>
                c in channels && c.status.Open? && NeedsFunds(cfg, run.slots, run.at, f, seen)(c)
    {
      CandidatesAreChannels(cfg, channels, run.slots, run.at, f, seen, c);
    }
    StableSortSorts(needy, BY_BALANCE);
    forall i, j | 0 <= i < j < |run.candidates| ensures run.candidates[i].balance <= run.candidates[j].balance {
      assert BY_BALANCE(run.candidates[i]) <= BY_BALANCE(run.candidates[j]);
    }
    if Distinct(channels) {
      FilterKeepsDistinct(channels, IS_OPEN);
      FilterKeepsDistinct(Opened(channels), NeedsFunds(cfg, run.slots, run.at, f, seen));
      SortKeepsDistinct(needy);
    }
  }

  lemma SortKeepsDistinct(cs: seq<Channel>)
    requires Distinct(cs)
    ensures Distinct(StableSort(cs, BY_BALANCE))
  {
    var s := StableSort(cs, BY_BALANCE);
    forall i, j | 0 <= i < j < |s| ensures s[i].id != s[j].id && s[i].destination != s[j].destination {
      TwicePlaced(s, i, j);
      NowhereTwice(cs, s[i]);
      SameElements(s, cs);
      SameIdSameChannelApart(cs, s[i], s[j]);
    }
  }

  lemma TwicePlaced(s: seq<Channel>, i: nat, j: nat)
    requires i < j < |s|
    ensures s[i] == s[j] ==> multiset(s)[s[i]] >= 2
  {
    if s[i] == s[j] {
      assert s == s[..j] + s[j..];
      assert s[..j][i] == s[i] && s[j..][0] == s[i];
      assert multiset(s) == multiset(s[..j]) + multiset(s[j..]);
      assert s[i] in multiset(s[..j]) && s[i] in multiset(s[j..]);
    }
  }

  lemma {:induction false} NowhereTwice(cs: seq<Channel>, c: Channel)
    requires Distinct(cs)
    ensures multiset(cs)[c] <= 1
  {
    if cs != [] {
      var front, last := cs[..|cs| - 1], cs[|cs| - 1];
      assert cs == front + [last];
      assert Distinct(front);
      NowhereTwice(front, c);
      forall i | 0 <= i < |front| ensures front[i] != last {
        assert cs[i].id != cs[|cs| - 1].id;
      }
      assert last !in multiset(front);
    }
  }

  lemma SameIdSameChannelApart(cs: seq<Channel>, a: Channel, b: Channel)
    requires Distinct(cs) && a in cs && b in cs && a != b
    ensures a.id != b.id && a.destination != b.destination
  {
    var i :| 0 <= i < |cs| && cs[i] == a;
    var j :| 0 <= j < |cs| && cs[j] == b;
    assert i < j || j < i;
  }

  /** A tick works with amounts exactly if it could read the economics, and then the opening stake, the top-up and the
      threshold each pay for the traffic of their configured capacity at the price and the chance that were read. */
  lemma WorksWithWhatItRead(cfg: Config, seen: Reads, e: Economics, p: real, face: real, bytes: nat, amount: nat,
                            n: nat, cost: real, worth: real)
    requires ValidConfig(cfg) && seen.economics == Some(e) && cfg.snap >= 0.0
    requires 0 < e.price <= U128_MAX && cfg.hops > 0
    requires IsFor(cfg.funding, Funding(cfg, seen).value, bytes, amount)
    requires WinsWith(e.winProb, p) && PaysOnAverage(face, e.price, cfg.hops, p)
    requires bytes > 0 ==> JustCarries(n, bytes, cfg.payload)
    requires bytes > 0 ==> CostsSoMuch(cost, n, e.price, cfg.hops, cfg.funding.mode)
    requires worth == if cost >= face then cost else face
    requires Unsaturated(bytes, cfg.payload, e.price, e.winProb, cfg.hops, cfg.funding.mode, cfg.snap)
    ensures Funding(cfg, seen.(economics := None)).None?
    ensures bytes == 0 ==> amount == 0
    ensures bytes > 0 ==> amount as real < worth + face
    ensures bytes > 0 ==> exists t: nat ::
              && t >= 1 && amount == Funding(cfg, seen).value.face * t
              && worth - cfg.snap * worth - t as real * cfg.hops as real < amount as real
  {
    hide Resolve, WinsWith, PaysOnAverage, JustCarries, CostsSoMuch, Unsaturated, IsFor;
    AmountsPayForTheirCapacity(cfg.funding, cfg.payload, e.price, e.winProb, cfg.hops, cfg.snap, p, face,
                               bytes, amount, n, cost, worth);
  }

  /** What the Safe owns when the tick reads it. */
  ghost predicate SafeHolds(safe: Option<SafeInfo>, balance: nat, allowance: nat) {
    match safe
    case Some(Registered(b, a)) => b == balance && a == allowance
    case Some(Unregistered) => balance == 0 && allowance == 0
    case None => false
  }

  /** The fund pass runs exactly when economics and Safe are known. It works off its worklist with what the Safe can
      move, its balance or its allowance if that is smaller, and takes the Safe for stranded exactly when the
      balance does not cover a top-up for every channel of the worklist and an opening stake for every channel
      missing from the floor. */
  lemma FundsWithinTheSafe(cfg: Config, start: nat, channels: seq<Channel>, streak: map<Address, nat>, seen: Reads,
                           r: Report, balance: nat, allowance: nat)
    returns (n: seq<nat>)
    requires TickOutcome(cfg, start, channels, streak, seen, r)
    ensures r.fund.Some? <==> r.funding.Some? && seen.safe.Some?
    ensures r.fund.Some? && SafeHolds(seen.safe, balance, allowance) ==>
              var run, f := r.fund.value, r.funding.value;
              && (run.stranded <==>
                    && balance < U256_MAX
                    && balance < f.topup * |run.candidates|
                                 + f.initial * (if cfg.minOpen >= r.openCount then cfg.minOpen - r.openCount else 0))
              && (if f.topup == 0 || f.face == 0 then FundAttempts(r) == [] && Deferred(r) == {} && !run.result.short
                  else
                    && |run.answers| == |run.candidates|
                    && 0 < |n| <= |run.candidates| + 1 && n[0] == 0 && n[|n| - 1] == |FundAttempts(r)|
                    && (forall i :: 0 <= i < |n| - 1 ==>
                          PlaceAt(FundAttempts(r), n,
                                  FundRule(run.candidates, run.answers, f, run.stranded, Min(balance, allowance)), i))
                    && (forall id :: id in Deferred(r) <==>
                          exists i :: 0 <= i < |n| - 1 && run.candidates[i].id == id && run.stranded
                                      && run.candidates[i].balance < f.face)
                    && (|n| - 1 < |run.candidates| ==>
                          && Min(balance, allowance) - Spent(FundAttempts(r)) < f.topup
                          && Min(balance, allowance) - Spent(FundAttempts(r)) < f.face)
                    && (run.result.short <==>
                          || |n| - 1 < |run.candidates|
                          || exists k :: 0 <= k < |FundAttempts(r)| && FundAttempts(r)[k].amount < f.topup))
  {
    hide ClosePart, ReclaimPart, FinalizePart, OpenPart, FundFold, FundRule, Spent, FundCandidates;
    n := [];
    if r.fund.Some? && SafeHolds(seen.safe, balance, allowance) {
      var run, f := r.fund.value, r.funding.value;
      if f.topup > 0 && f.face > 0 {
        var st;
        st, n := FundPassServesTheList(run.candidates, run.answers, f, run.stranded, Min(balance, allowance));
      }
    }
  }

  // ---------------------------------------------------------------------------------------------
  // Population and close pass
  // ---------------------------------------------------------------------------------------------

  /** Where the open channels of the list stand. */
  ghost function OpenPlaces(channels: seq<Channel>): set<int> {
    set i | 0 <= i < |channels| && channels[i].status.Open?
  }

  lemma OpenPlacesNext(front: seq<Channel>, last: Channel)
    ensures |OpenPlaces(front + [last])| == |OpenPlaces(front)| + if last.status.Open? then 1 else 0
  {
    assert OpenPlaces(front + [last]) == OpenPlaces(front) + if last.status.Open? then {|front|} else {};
  }

  lemma {:induction false} OpenedByPlace(channels: seq<Channel>)
    ensures |Opened(channels)| == |OpenPlaces(channels)|
  {
    if channels != [] {
      var k := |channels| - 1;
      hide OpenPlaces, Filter;
      OpenedByPlace(channels[..k]);
      LastOfFilter(channels, IS_OPEN);
      OpenPlacesNext(channels[..k], channels[k]);
      assert channels == channels[..k] + [channels[k]];
    } else {
      assert OpenPlaces(channels) == {};
    }
  }

  /** The counted population is the channels that are open and those being opened. */
  lemma CountsThePopulation(cfg: Config, start: nat, channels: seq<Channel>, streak: map<Address, nat>,
                            seen: Reads, r: Report)
    requires TickOutcome(cfg, start, channels, streak, seen, r)
    ensures r.openCount == |OpenPlaces(channels)|
                           + |set key | key in r.slots.open.leases && Live(r.slots.open, key, r.at)|
  {
    hide FundPart, ClosePart, ReclaimPart, FinalizePart, OpenPart, Opened;
    OpenedByPlace(channels);
    assert HeldKeys(r.slots.open, r.at) == set key | key in r.slots.open.leases && Live(r.slots.open, key, r.at);
  }

  /** The channel is open, its peer known to be disconnected now and seen so long enough. */
  ghost predicate LongDown(channels: seq<Channel>, seen: Reads, streak: map<Address, nat>, debounce: nat, id: ChannelId)
  {
    exists c :: c in channels && c.id == id && c.status.Open?
      && seen.peers.Some? && c.destination in seen.peers.value.downAtClosing
      && c.destination in streak && streak[c.destination] >= debounce && streak[c.destination] >= 1
  }

  lemma RetirableAre(channels: seq<Channel>, seen: Reads, streak: map<Address, nat>, debounce: nat, id: ChannelId)
    ensures id in Retirable(Opened(channels), DownAtClosing(seen), streak, debounce)
       <==> LongDown(channels, seen, streak, debounce, id)
  {
    assert forall c: Channel :: IS_OPEN(c) <==> c.status.Open?;
    if LongDown(channels, seen, streak, debounce, id) {
      var c :| c in channels && c.id == id && c.status.Open?
        && seen.peers.Some? && c.destination in seen.peers.value.downAtClosing
        && c.destination in streak && streak[c.destination] >= debounce && streak[c.destination] >= 1;
      assert IS_OPEN(c) && c in Opened(channels);
    }
  }

  /** The close pass runs exactly once the observation time is over. Its list is the selector's ranking, followed by
      the channels whose peers have been disconnected for long enough and that the selector did not rank, each once;
      it closes down to the configured floor, within the closing and per-tick caps, and between the observation
      time and the end of the grace time only the long disconnected ones. */
  lemma ClosesTheListed(cfg: Config, start: nat, channels: seq<Channel>, streak: map<Address, nat>, seen: Reads,
                        r: Report)
    returns (n: seq<nat>)
    requires TickOutcome(cfg, start, channels, streak, seen, r)
    ensures start <= r.phaseAt
    ensures r.phase.Observing? <==> r.phaseAt - start < cfg.observation
    ensures r.phase.ShieldingConnected? <==> cfg.observation <= r.phaseAt - start < cfg.grace
    ensures r.close.Some? <==> r.phaseAt - start >= cfg.observation
    ensures r.close.Some? ==>
              var run := r.close.value;
              var g, listed := run.guards, seen.closesRanked + run.unranked;
              && EachOnce(run.unranked)
              && (forall id :: id in run.unranked <==>
                    id !in seen.closesRanked && LongDown(channels, seen, streak, cfg.debounceTicks, id))
              && g.maxConcurrent == cfg.lim.maxClosing && g.perTickCap == seen.perTickCap
              && g.openCount == r.openCount && g.minOpen == cfg.minOpen && g.phase == r.phase
              && (forall id :: id in g.known <==> exists c :: c in channels && c.id == id && c.status.Open?)
              && (forall id :: id in g.disconnected <==> LongDown(channels, seen, streak, cfg.debounceTicks, id))
              && |run.answers| == |listed|
              && var inFlight := |set key | key in run.slots.close.leases && Live(run.slots.close, key, run.at)|;
                 && 0 < |n| <= |listed| + 1 && n[0] == 0 && n[|n| - 1] == |CloseAttempts(r)|
                 && (forall i :: 0 <= i < |n| - 1 ==>
                       PlaceAt(CloseAttempts(r), n, CloseRule(listed, run.answers, g, inFlight), i))
                 && (|n| - 1 < |listed| ==>
                       !MayClose(g, inFlight + AcceptedCount(CloseAttempts(r)), AcceptedCount(CloseAttempts(r))))
  {
    hide FundPart, ReclaimPart, FinalizePart, OpenPart, CloseFold, CloseRule, AcceptedCount, Retirable, LongDown;
    n := [];
    if r.close.Some? {
      var run := r.close.value;
      var st;
      st, n := ClosePassServesTheList(seen.closesRanked + run.unranked, run.answers, run.guards,
                                      Held(run.slots.close, run.at));
      forall id
        ensures id in run.guards.disconnected <==> LongDown(channels, seen, streak, cfg.debounceTicks, id)
      {
        RetirableAre(channels, seen, streak, cfg.debounceTicks, id);
      }
      forall id ensures id in run.guards.known <==> exists c :: c in channels && c.id == id && c.status.Open? {
        KnownAre(channels, id);
      }
      assert HeldKeys(run.slots.close, run.at)
          == set key | key in run.slots.close.leases && Live(run.slots.close, key, run.at);
    }
  }

  lemma KnownAre(channels: seq<Channel>, id: ChannelId)
    ensures id in KnownIds(Opened(channels)) <==> exists c :: c in channels && c.id == id && c.status.Open?
  {
    assert forall c: Channel :: IS_OPEN(c) <==> c.status.Open?;
    if c :| c in channels && c.id == id && c.status.Open? {
      assert IS_OPEN(c) && c in Opened(channels);
    }
  }

  // ---------------------------------------------------------------------------------------------
  // Consolidation
  // ---------------------------------------------------------------------------------------------

  /** Stake of the first `i` channels that is being closed on chain or held by a closing transaction. */
  ghost predicate SumsWhatComesBack(total: seq<nat>, channels: seq<Channel>, s: SlotSet, now: nat) {
    && |total| == |channels| + 1 && total[0] == 0
    && forall i :: 0 <= i < |channels| ==>
         total[i + 1] == total[i] + if channels[i].status.PendingToClose? || Live(s.close, Chan(channels[i].id), now)
                                    then channels[i].balance else 0
  }

  lemma {:induction false} ReclaimingSums(channels: seq<Channel>, s: SlotSet, now: nat) returns (total: seq<nat>)
    ensures SumsWhatComesBack(total, channels, s, now) && total[|channels|] == Reclaiming(channels, s, now)
  {
    total := [0];
    if channels != [] {
      hide Live;
      var k := |channels| - 1;
      var front := ReclaimingSums(channels[..k], s, now);
      total := front + [Reclaiming(channels, s, now)];
      forall i | 0 <= i < |channels|
        ensures total[i + 1] == total[i] + if channels[i].status.PendingToClose?
                                              || Live(s.close, Chan(channels[i].id), now)
                                           then channels[i].balance else 0
      {
        if i < k {
          assert channels[..k][i] == channels[i];
        }
      }
    }
  }

  lemma UnderfundedAre(channels: seq<Channel>, deferred: set<ChannelId>, s: SlotSet, now: nat, c: Channel)
    ensures c in Filter(Opened(channels), IsFree(deferred, s, now)) <==>
              && c in channels && c.status.Open? && c.id in deferred
              && !Live(s.fund, Chan(c.id), now) && !Live(s.close, Chan(c.id), now)
  {
    hide Live;
    assert IS_OPEN(c) <==> c.status.Open?;
  }

  /** The closures are those of the consolidation decision on `cs`, ranked by the quality of their peers. */
  ghost predicate DecidedOn(closes: seq<ChannelId>, cs: seq<Channel>, quality: map<ChannelId, real>,
                            safe: nat, reclaiming: nat, face: nat)
  {
    exists under: seq<Consolidation.Candidate> ::
      && |under| == |cs|
      && (forall i :: 0 <= i < |under| ==>
            && under[i].id == cs[i].id && under[i].balance == cs[i].balance
            && under[i].rank == if cs[i].id in quality then quality[cs[i].id] else 0.0)
      && closes == Consolidation.ConsolidationCloses(under, safe, reclaiming, face)
  }

  lemma DecidedOnRanked(cs: seq<Channel>, quality: map<ChannelId, real>, safe: nat, reclaiming: nat, face: nat)
    ensures DecidedOn(Consolidation.ConsolidationCloses(Ranked(cs, quality), safe, reclaiming, face),
                      cs, quality, safe, reclaiming, face)
  {
    hide Consolidation.ConsolidationCloses;
    var under := Ranked(cs, quality);
    assert forall i :: 0 <= i < |under| ==>
      && under[i].id == cs[i].id && under[i].balance == cs[i].balance
      && under[i].rank == if cs[i].id in quality then quality[cs[i].id] else 0.0;
  }

  /** Consolidation runs exactly when the fund pass left channels to it. It chooses among those of them that are open
      with no transaction in flight; the pool it counts on is the Safe's whole balance, their stake, and the stake
      of exactly the channels that are pending to close or held by a closing transaction; and it decides on
      closures only after the startup guard has expired. */
  lemma ConsolidatesTheDeferred(cfg: Config, start: nat, channels: seq<Channel>, streak: map<Address, nat>,
                                seen: Reads, r: Report, balance: nat, allowance: nat)
    returns (total: seq<nat>)
    requires TickOutcome(cfg, start, channels, streak, seen, r)
    ensures r.reclaim.Some? <==> r.fund.Some? && r.funding.value.face > 0 && Deferred(r) != {}
    ensures r.reclaim.Some? && SafeHolds(seen.safe, balance, allowance) ==>
              var run := r.reclaim.value;
              && (forall c :: c in run.underfunded <==>
                    && c in channels && c.status.Open? && c.id in Deferred(r)
                    && !Live(run.slots.fund, Chan(c.id), run.at) && !Live(run.slots.close, Chan(c.id), run.at))
              && SumsWhatComesBack(total, channels, run.slots, run.at) && total[|channels|] == run.reclaiming
              && (if r.phase.Expired? then
                    DecidedOn(run.closes, run.underfunded, seen.quality, balance, run.reclaiming, r.funding.value.face)
                  else run.closes == [])
  {
    hide FundPart, ClosePart, FinalizePart, OpenPart, TopUpOutcome, Reclaiming, ReclaimFold, SumsWhatComesBack,
      DecidedOn, Consolidation.ConsolidationCloses;
    total := [];
    if r.reclaim.Some? && SafeHolds(seen.safe, balance, allowance) {
      var run := r.reclaim.value;
      FundingWasKnown(cfg, channels, seen, r);
      total := ReclaimingSums(channels, run.slots, run.at);
      DecidedOnRanked(run.underfunded, seen.quality, balance, run.reclaiming, r.funding.value.face);
      hide Filter, Live;
      forall c
        ensures c in run.underfunded <==>
                  && c in channels && c.status.Open? && c.id in Deferred(r)
                  && !Live(run.slots.fund, Chan(c.id), run.at) && !Live(run.slots.close, Chan(c.id), run.at)
      {
        UnderfundedAre(channels, Deferred(r), run.slots, run.at, c);
      }
    }
  }

  /** The closures decided on are asked for in their order, up to where the closing cap is reached. */
  lemma AsksForItsClosures(cfg: Config, start: nat, channels: seq<Channel>, streak: map<Address, nat>,
                           seen: Reads, r: Report)
    requires TickOutcome(cfg, start, channels, streak, seen, r) && r.reclaim.Some?
    ensures var run, made := r.reclaim.value, ReclaimAttempts(r);
            var inFlight := |set key | key in run.slots.close.leases && Live(run.slots.close, key, run.at)|;
            && |made| <= |run.closes| == |run.answers|
            && (forall i :: 0 <= i < |made| ==>
                  ClosesNext(made, i, run.closes[i], run.answers[i], inFlight, cfg.lim.maxClosing))
            && (|made| < |run.closes| ==> inFlight + AcceptedCount(made) >= cfg.lim.maxClosing)
  {
    hide FundPart, ClosePart, FinalizePart, OpenPart, TopUpOutcome, Reclaiming, ReclaimFold, AcceptedCount, Filter,
      Consolidation.ConsolidationCloses;
    var run := r.reclaim.value;
    ReclaimPassServesTheList(run.closes, run.answers, Held(run.slots.close, run.at), cfg.lim.maxClosing);
    assert HeldKeys(run.slots.close, run.at)
        == set key | key in run.slots.close.leases && Live(run.slots.close, key, run.at);
  }

  /** The top-ups of consolidation run exactly when it had channels to choose among. They work off those of them it
      does not close and that have no transaction in flight by then, the highest balance first, with what the fund
      pass left of the Safe, and stop exactly where that does not cover what the next one lacks. */
  lemma RaisesTheRest(cfg: Config, start: nat, channels: seq<Channel>, streak: map<Address, nat>, seen: Reads,
                      r: Report, balance: nat, allowance: nat)
    returns (n: seq<nat>)
    requires TickOutcome(cfg, start, channels, streak, seen, r)
    ensures r.topup.Some? <==> r.reclaim.Some? && r.reclaim.value.underfunded != []
    ensures r.topup.Some? && SafeHolds(seen.safe, balance, allowance) ==>
              var run, face := r.topup.value, r.funding.value.face;
              var budget := Min(balance, allowance) - Spent(FundAttempts(r));
              && budget >= 0
              && (forall c :: c in run.survivors <==>
                    && c in channels && c.status.Open? && c.id in Deferred(r) && c.id !in r.reclaim.value.closes
                    && !Live(run.slots.fund, Chan(c.id), run.at) && !Live(run.slots.close, Chan(c.id), run.at))
              && (forall i, j :: 0 <= i < j < |run.survivors| ==>
                    run.survivors[i].balance >= run.survivors[j].balance)
              && |run.answers| == |run.survivors|
              && 0 < |n| <= |run.survivors| + 1 && n[0] == 0 && n[|n| - 1] == |TopUpAttempts(r)|
              && (forall i :: 0 <= i < |n| - 1 ==>
                    PlaceAt(TopUpAttempts(r), n, TopUpRule(run.survivors, run.answers, face, budget), i))
              && (|n| - 1 < |run.survivors| ==>
                    run.survivors[|n| - 1].balance + budget - Spent(TopUpAttempts(r)) < face)
              && (run.result.short <==> |n| - 1 < |run.survivors|)
  {
    hide FundOutcome, ClosePart, FinalizePart, OpenPart, ReclaimOutcome, Spent, Filter, Live, TopUpFold, TopUpRule,
      Survivors, PlaceAt;
    n := [];
    if r.topup.Some? && SafeHolds(seen.safe, balance, allowance) {
      var run, face := r.topup.value, r.funding.value.face;
      var budget := BudgetAfterFunding(seen, r);
      FundConserves(cfg, channels, seen, r);
      var st;
      st, n := TopUpPassServesTheList(run.survivors, run.answers, face, budget);
      SurvivorsDescend(channels, Deferred(r), r.reclaim.value.closes, run.slots, run.at);
      forall c
        ensures c in run.survivors <==>
                  && c in channels && c.status.Open? && c.id in Deferred(r) && c.id !in r.reclaim.value.closes
                  && !Live(run.slots.fund, Chan(c.id), run.at) && !Live(run.slots.close, Chan(c.id), run.at)
      {
        SurvivorsAreChannels(channels, Deferred(r), r.reclaim.value.closes, run.slots, run.at, c);
      }
    }
  }

  lemma SurvivorsDescend(channels: seq<Channel>, deferred: set<ChannelId>, closes: seq<ChannelId>, s: SlotSet, now: nat)
    ensures var cs := Survivors(Opened(channels), deferred, closes, s, now);
            forall i, j :: 0 <= i < j < |cs| ==> cs[i].balance >= cs[j].balance
  {
    var cs := Survivors(Opened(channels), deferred, closes, s, now);
    StableSortSorts(Filter(Opened(channels), IsSurvivor(deferred, closes, s, now)), BY_BALANCE_DESC);
    assert Sorted(cs, BY_BALANCE_DESC);
    hide Filter, StableSort;
    forall i, j | 0 <= i < j < |cs| ensures cs[i].balance >= cs[j].balance {
      assert BY_BALANCE_DESC(cs[i]) <= BY_BALANCE_DESC(cs[j]);
    }
  }

  // ---------------------------------------------------------------------------------------------
  // Finalize and open pass
  // ---------------------------------------------------------------------------------------------

  /** The finalize pass runs exactly when it is configured, over all channels of the node, and asks for those whose
      notice period has been over for the configured time, until its cap is reached. */
  lemma FinalizesTheOverdue(cfg: Config, start: nat, channels: seq<Channel>, streak: map<Address, nat>, seen: Reads,
                            r: Report)
    returns (n: seq<nat>)
    requires TickOutcome(cfg, start, channels, streak, seen, r)
    ensures r.finalize.Some? <==> cfg.finalizerEnabled
    ensures r.finalize.Some? ==>
              var run, cap := r.finalize.value, cfg.lim.maxFinalizing;
              var inFlight := |set key | key in run.slots.finalize.leases && Live(run.slots.finalize, key, run.at)|;
              && |run.answers| == |channels|
              && 0 < |n| <= |channels| + 1 && n[0] == 0 && n[|n| - 1] == |FinalizeAttempts(r)|
              && (forall i :: 0 <= i < |n| - 1 ==>
                    PlaceAt(FinalizeAttempts(r), n,
                            FinalizeRule(channels, run.answers, cap, seen.wallClock, cfg.overdue, inFlight), i))
              && (|n| - 1 < |channels| ==> inFlight + AcceptedCount(FinalizeAttempts(r)) >= cap)
  {
    hide FundPart, ClosePart, ReclaimPart, OpenPart, FinalizeFold, FinalizeRule, AcceptedCount, PlaceAt;
    n := [];
    if r.finalize.Some? {
      var run := r.finalize.value;
      var st;
      st, n := FinalizePassServesTheList(channels, run.answers, cfg.lim.maxFinalizing, seen.wallClock, cfg.overdue,
                                         Held(run.slots.finalize, run.at));
      assert HeldKeys(run.slots.finalize, run.at)
          == set key | key in run.slots.finalize.leases && Live(run.slots.finalize, key, run.at);
    }
  }

  /** The open pass runs exactly when channels are missing from the target, the peers, the economics and the Safe are
      known, and an opening stake exists. It goes through as many of the best ranked peers as channels are missing.
      Until what its predecessors and the passes before have left is below the opening stake, a peer with no
      channel or a closed one is opened towards, an open channel below its threshold is topped up if that can be
      paid, and every other peer is passed over. */
  lemma OpensTowardsTheBest(cfg: Config, start: nat, channels: seq<Channel>, streak: map<Address, nat>, seen: Reads,
                            r: Report, balance: nat, allowance: nat)
    returns (n: seq<nat>)
    requires TickOutcome(cfg, start, channels, streak, seen, r)
    ensures r.open.Some? <==>
              && cfg.targetOpen > r.openCount && seen.peers.Some? && r.funding.Some? && seen.safe.Some?
              && r.funding.value.initial > 0
    ensures r.open.Some? && SafeHolds(seen.safe, balance, allowance) ==>
              var run, f, made := r.open.value, r.funding.value, OpenAttempts(r);
              var budget := Min(balance, allowance) - Spent(FundAttempts(r)) - Spent(TopUpAttempts(r));
              && |run.answers| == Min(cfg.targetOpen - r.openCount, |seen.opensRanked|)
              && 0 < |n| <= |run.answers| + 1 && n[0] == 0 && n[|n| - 1] == |made|
              && (forall i {:trigger run.answers[i]} :: 0 <= i < |n| - 1 ==>
                    && n[i] <= n[i + 1] <= |made|
                    && OpenServes(made[n[i]..n[i + 1]], seen.opensRanked[i],
                                  if seen.opensRanked[i] in seen.reread then Some(seen.reread[seen.opensRanked[i]])
                                  else None,
                                  run.answers[i], f, budget - Spent(made[..n[i]])))
              && (|n| - 1 < |run.answers| ==> budget - Spent(made) < f.initial)
  {
    hide FundOutcome, ClosePart, FinalizePart, ReclaimOutcome, TopUpOutcome, Spent, OpenFold, OpenServes;
    n := [];
    if r.open.Some? && SafeHolds(seen.safe, balance, allowance) {
      var run, f := r.open.value, r.funding.value;
      FundConserves(cfg, channels, seen, r);
      TopUpsConserve(cfg, channels, seen, r);
      var budget := BudgetAfterTopUps(seen, r);
      var st;
      st, n := OpenPassServesTheList(run.addrs, Reread(run.addrs, seen.reread), run.answers, f, budget);
      var rule := OpenRule(run.addrs, Reread(run.addrs, seen.reread), run.answers, f, budget);
      forall i {:trigger n[i]} | 0 <= i < |n| - 1
        ensures && n[i] <= n[i + 1] <= |OpenAttempts(r)|
                && OpenServes(OpenAttempts(r)[n[i]..n[i + 1]], seen.opensRanked[i],
                              if seen.opensRanked[i] in seen.reread then Some(seen.reread[seen.opensRanked[i]])
                              else None,
                              run.answers[i], f, budget - Spent(OpenAttempts(r)[..n[i]]))
      {
        assert PlaceAt(st.attempts, n, rule, i);
      }
    }
  }

  // ---------------------------------------------------------------------------------------------
  // Consolidation over consecutive ticks
  // ---------------------------------------------------------------------------------------------

  /** Consolidation may choose the channel: it is open, deferred, and in no transaction. */
  ghost predicate Choosable(c: Channel, deferred: set<ChannelId>, s: SlotSet, now: nat) {
    c.status.Open? && c.id in deferred && !Live(s.fund, Chan(c.id), now) && !Live(s.close, Chan(c.id), now)
  }

  /** The stake of the channel is on its way back. */
  ghost predicate ComesBack(c: Channel, s: SlotSet, now: nat) {
    c.status.PendingToClose? || Live(s.close, Chan(c.id), now)
  }

  /** One channel in two ticks: a closure that was started holds its slot or has reached the chain, and any other
      channel stands as it stood. */
  ghost predicate MovedOn(c: Channel, c': Channel, gone: set<ChannelId>, d: set<ChannelId>, s: SlotSet, t: nat,
                          d': set<ChannelId>, s': SlotSet, t': nat)
  {
    && c'.id == c.id && c'.balance == c.balance
    && (if c.id in gone then c'.status.PendingToClose? || (c'.status.Open? && Live(s'.close, Chan(c.id), t'))
        else
          && (Choosable(c', d', s', t') <==> Choosable(c, d, s, t))
          && (ComesBack(c', s', t') <==> ComesBack(c, s, t)))
  }

  lemma StakeSnoc(cs: seq<Consolidation.Candidate>, c: Consolidation.Candidate)
    ensures Consolidation.Stake(cs + [c]) == Consolidation.Stake(cs) + c.balance
  {
    if cs != [] {
      StakeSnoc(cs[1..], c);
      assert (cs + [c])[1..] == cs[1..] + [c];
    }
  }

  function Choose(deferred: set<ChannelId>, s: SlotSet, now: nat): Channel -> bool {
    (c: Channel) => IS_OPEN(c) && IsFree(deferred, s, now)(c)
  }

  lemma {:induction false} FilterTwice(cs: seq<Channel>, deferred: set<ChannelId>, s: SlotSet, now: nat)
    ensures Filter(Opened(cs), IsFree(deferred, s, now)) == Filter(cs, Choose(deferred, s, now))
  {
    if cs != [] {
      hide IsFree;
      FilterTwice(cs[1..], deferred, s, now);
      if IS_OPEN(cs[0]) {
        assert Opened(cs)[1..] == Opened(cs[1..]);
      }
    }
  }

  function AsCandidate(c: Channel, quality: map<ChannelId, real>): Consolidation.Candidate {
    Consolidation.Candidate(c.id, c.balance, QualityOf(quality, c.id))
  }

  lemma RankedSnoc(cs: seq<Channel>, c: Channel, quality: map<ChannelId, real>)
    ensures Ranked(cs + [c], quality) == Ranked(cs, quality) + [AsCandidate(c, quality)]
  {}

  lemma RankedNext(cs: seq<Channel>, keep: Channel -> bool, quality: map<ChannelId, real>)
    requires cs != []
    ensures var k := |cs| - 1;
            Ranked(Filter(cs, keep), quality)
            == Ranked(Filter(cs[..k], keep), quality) + if keep(cs[k]) then [AsCandidate(cs[k], quality)] else []
  {
    LastOfFilter(cs, keep);
    hide Filter, Ranked, AsCandidate;
    var k := |cs| - 1;
    RankedSnoc(Filter(cs[..k], keep), cs[k], quality);
    assert Filter(cs[..k], keep) + [] == Filter(cs[..k], keep);
    assert Ranked(Filter(cs[..k], keep), quality) + [] == Ranked(Filter(cs[..k], keep), quality);
  }

  lemma NamedSnoc(cs: seq<Consolidation.Candidate>, c: Consolidation.Candidate, gone: set<ChannelId>)
    ensures Consolidation.Named(cs + [c], gone) == Consolidation.Named(cs, gone) + if c.id in gone then [c] else []
    ensures Consolidation.Others(cs + [c], gone) == Consolidation.Others(cs, gone) + if c.id in gone then [] else [c]
  {
    FilterAppend(cs, [c], Consolidation.InSet(gone));
    FilterAppend(cs, [c], Consolidation.NotInSet(gone));
    assert [c][1..] == [];
  }

  /** Candidates and returning stake after the channels `gone` have moved from the one to the other. */
  ghost predicate Moved(under: seq<Consolidation.Candidate>, back: nat,
                        under': seq<Consolidation.Candidate>, back': nat, gone: set<ChannelId>)
  {
    && under' == Consolidation.Others(under, gone)
    && back' == back + Consolidation.Stake(Consolidation.Named(under, gone))
  }

  lemma MovedNext(under: seq<Consolidation.Candidate>, back: nat,
                  under': seq<Consolidation.Candidate>, back': nat, gone: set<ChannelId>,
                  c: Consolidation.Candidate, chosen: bool, chosen': bool, counts: bool, counts': bool)
    requires Moved(under, back, under', back', gone)
    requires if c.id in gone then chosen && !chosen' && !counts && counts' else chosen == chosen' && counts == counts'
    ensures Moved(under + if chosen then [c] else [], back + if counts then c.balance else 0,
                  under' + if chosen' then [c] else [], back' + if counts' then c.balance else 0, gone)
  {
    hide Consolidation.Stake, Consolidation.Named, Consolidation.Others;
    NamedSnoc(under, c, gone);
    StakeSnoc(Consolidation.Named(under, gone), c);
    assert under + [] == under && under' + [] == under';
    assert Consolidation.Named(under, gone) + [] == Consolidation.Named(under, gone);
  }

  lemma ReclaimingNext(cs: seq<Channel>, s: SlotSet, now: nat)
    requires cs != []
    ensures var k := |cs| - 1;
            Reclaiming(cs, s, now)
            == Reclaiming(cs[..k], s, now) + if ComesBack(cs[k], s, now) then cs[k].balance else 0
  {}

  lemma {:induction false} OneMovesOn(cs: seq<Channel>, cs': seq<Channel>, gone: set<ChannelId>, d: set<ChannelId>,
                                      s: SlotSet, t: nat, d': set<ChannelId>, s': SlotSet, t': nat,
                                      quality: map<ChannelId, real>)
    requires |cs| == |cs'| > 0
    requires var k := |cs| - 1;
             && MovedOn(cs[k], cs'[k], gone, d, s, t, d', s', t')
             && (cs[k].id in gone ==> Choosable(cs[k], d, s, t))
             && Moved(Ranked(Filter(cs[..k], Choose(d, s, t)), quality), Reclaiming(cs[..k], s, t),
                      Ranked(Filter(cs'[..k], Choose(d', s', t')), quality), Reclaiming(cs'[..k], s', t'), gone)
    ensures Moved(Ranked(Filter(cs, Choose(d, s, t)), quality), Reclaiming(cs, s, t),
                  Ranked(Filter(cs', Choose(d', s', t')), quality), Reclaiming(cs', s', t'), gone)
  {
    hide Filter, Moved, Ranked, Reclaiming, Live;
    var k := |cs| - 1;
    RankedNext(cs, Choose(d, s, t), quality);
    RankedNext(cs', Choose(d', s', t'), quality);
    ReclaimingNext(cs, s, t);
    ReclaimingNext(cs', s', t');
    MovedNext(Ranked(Filter(cs[..k], Choose(d, s, t)), quality), Reclaiming(cs[..k], s, t),
              Ranked(Filter(cs'[..k], Choose(d', s', t')), quality), Reclaiming(cs'[..k], s', t'), gone,
              AsCandidate(cs[k], quality), Choosable(cs[k], d, s, t), Choosable(cs'[k], d', s', t'),
              ComesBack(cs[k], s, t), ComesBack(cs'[k], s', t'));
  }

  /** What consolidation reads in the later tick is what it read in the earlier one after the started closures have
      been taken out of the candidates and their stake put among what comes back. */
  lemma {:induction false} StandsWithout(cs: seq<Channel>, cs': seq<Channel>, gone: set<ChannelId>,
                                         d: set<ChannelId>, s: SlotSet, t: nat,
                                         d': set<ChannelId>, s': SlotSet, t': nat, quality: map<ChannelId, real>)
    requires |cs| == |cs'|
    requires forall i :: 0 <= i < |cs| ==> MovedOn(cs[i], cs'[i], gone, d, s, t, d', s', t')
    requires forall c :: c in cs && c.id in gone ==> Choosable(c, d, s, t)
    ensures Moved(Ranked(Filter(cs, Choose(d, s, t)), quality), Reclaiming(cs, s, t),
                  Ranked(Filter(cs', Choose(d', s', t')), quality), Reclaiming(cs', s', t'), gone)
  {
    if cs != [] {
      var k := |cs| - 1;
      hide Filter, Moved, Ranked, Reclaiming, Choosable, MovedOn;
      StandsWithout(cs[..k], cs'[..k], gone, d, s, t, d', s', t', quality);
      assert MovedOn(cs[k], cs'[k], gone, d, s, t, d', s', t');
      OneMovesOn(cs, cs', gone, d, s, t, d', s', t', quality);
    } else {
      assert Ranked([], quality) == [];
    }
  }

  lemma GoneWereChoosable(cfg: Config, start: nat, cs: seq<Channel>, streak: map<Address, nat>, seen: Reads, r: Report,
                          gone: set<ChannelId>, c: Channel)
    requires TickOutcome(cfg, start, cs, streak, seen, r) && Distinct(cs) && r.reclaim.Some? && r.phase.Expired?
    requires forall id :: id in gone ==> id in r.reclaim.value.closes
    requires c in cs && c.id in gone
    ensures Choosable(c, Deferred(r), r.reclaim.value.slots, r.reclaim.value.at)
  {
    hide FundOutcome, ClosePart, FinalizePart, OpenPart, TopUpOutcome, Filter, Reclaiming, Live,
      Consolidation.ConsolidationCloses;
    FundingWasKnown(cfg, cs, seen, r);
    var run := r.reclaim.value;
    IdsOfRanked(run.underfunded, seen.quality, c.id, SafeBudget(seen.safe).value.balance, run.reclaiming,
                r.funding.value.face);
    var u :| u in run.underfunded && u.id == c.id;
    UnderfundedAre(cs, Deferred(r), run.slots, run.at, u);
    SameIdSameChannel(cs, c, u);
  }

  lemma DecisionIs(cfg: Config, start: nat, cs: seq<Channel>, streak: map<Address, nat>, seen: Reads, r: Report,
                   balance: nat, allowance: nat)
    requires TickOutcome(cfg, start, cs, streak, seen, r) && r.reclaim.Some? && r.phase.Expired?
    requires SafeHolds(seen.safe, balance, allowance)
    ensures var run := r.reclaim.value;
            && r.funding.value.face > 0
            && run.closes == Consolidation.ConsolidationCloses(
                               Ranked(Filter(cs, Choose(Deferred(r), run.slots, run.at)), seen.quality), balance,
                               Reclaiming(cs, run.slots, run.at), r.funding.value.face)
  {
    hide ClosePart, FinalizePart, OpenPart, TopUpOutcome, Filter, Reclaiming, Ranked, ReclaimFold, FundOutcome,
      Consolidation.ConsolidationCloses;
    FilterTwice(cs, Deferred(r), r.reclaim.value.slots, r.reclaim.value.at);
  }

  lemma ChoiceIsDistinct(cfg: Config, start: nat, cs: seq<Channel>, streak: map<Address, nat>, seen: Reads, r: Report)
    requires TickOutcome(cfg, start, cs, streak, seen, r) && Distinct(cs) && r.reclaim.Some?
    ensures var run := r.reclaim.value;
            Consolidation.DistinctIds(Ranked(Filter(cs, Choose(Deferred(r), run.slots, run.at)), seen.quality))
  {
    hide ClosePart, FinalizePart, OpenPart, TopUpOutcome, Filter, Reclaiming, Ranked, ReclaimFold, FundOutcome,
      Consolidation.ConsolidationCloses, Consolidation.DistinctIds;
    FilterTwice(cs, Deferred(r), r.reclaim.value.slots, r.reclaim.value.at);
    UnderfundedPremises(cfg, cs, seen, r);
  }

  lemma RestIsDecided(cs: seq<Channel>, cs': seq<Channel>, gone: set<ChannelId>,
                      d: set<ChannelId>, s: SlotSet, t: nat, d': set<ChannelId>, s': SlotSet, t': nat,
                      quality: map<ChannelId, real>, balance: nat, face: nat)
    requires |cs| == |cs'| && face > 0
    requires forall i :: 0 <= i < |cs| ==> MovedOn(cs[i], cs'[i], gone, d, s, t, d', s', t')
    requires forall c :: c in cs && c.id in gone ==> Choosable(c, d, s, t)
    requires var under := Ranked(Filter(cs, Choose(d, s, t)), quality);
             && Consolidation.DistinctIds(under)
             && forall id :: id in gone ==>
                  id in Consolidation.ConsolidationCloses(under, balance, Reclaiming(cs, s, t), face)
    ensures Consolidation.ConsolidationCloses(Ranked(Filter(cs', Choose(d', s', t')), quality), balance,
                                              Reclaiming(cs', s', t'), face)
         == Consolidation.Remaining(
              Consolidation.ConsolidationCloses(Ranked(Filter(cs, Choose(d, s, t)), quality), balance,
                                                Reclaiming(cs, s, t), face), gone)
  {
    hide Filter, Ranked, Reclaiming, Choosable, MovedOn, Choose, Consolidation.ConsolidationCloses,
      Consolidation.Remaining, Consolidation.DistinctIds, Consolidation.Named, Consolidation.Others,
      Consolidation.Stake;
    StandsWithout(cs, cs', gone, d, s, t, d', s', t', quality);
    Consolidation.DispatchRest(Ranked(Filter(cs, Choose(d, s, t)), quality), gone, balance,
                               Reclaiming(cs, s, t), face);
  }

  /** From one tick to a later one with the same Safe balance, face value, qualities and channels, except that some
      of the closures decided on in the first have been started: those go on counting with their whole balance
      while they hold their slot and once they are pending, so the second tick decides on exactly the rest of the
      first decision and adds no closure. */
  lemma NextTickClosesOnlyTheRest(cfg: Config, start: nat, balance: nat,
                                  cs: seq<Channel>, streak: map<Address, nat>, seen: Reads, r: Report, allowance: nat,
                                  cs': seq<Channel>, streak': map<Address, nat>, seen': Reads, r': Report,
                                  allowance': nat, gone: set<ChannelId>)
    requires TickOutcome(cfg, start, cs, streak, seen, r) && Distinct(cs)
    requires TickOutcome(cfg, start, cs', streak', seen', r')
    requires r.reclaim.Some? && r.phase.Expired? && r'.reclaim.Some? && r'.phase.Expired?
    requires SafeHolds(seen.safe, balance, allowance) && SafeHolds(seen'.safe, balance, allowance')
    requires r'.funding.value.face == r.funding.value.face && seen'.quality == seen.quality
    requires forall id :: id in gone ==> id in r.reclaim.value.closes
    requires |cs'| == |cs| && forall i :: 0 <= i < |cs| ==>
               MovedOn(cs[i], cs'[i], gone, Deferred(r), r.reclaim.value.slots, r.reclaim.value.at,
                       Deferred(r'), r'.reclaim.value.slots, r'.reclaim.value.at)
    ensures r'.reclaim.value.closes == Consolidation.Remaining(r.reclaim.value.closes, gone)
  {
    var run, run' := r.reclaim.value, r'.reclaim.value;
    hide *;
    forall c | c in cs && c.id in gone ensures Choosable(c, Deferred(r), run.slots, run.at) {
      GoneWereChoosable(cfg, start, cs, streak, seen, r, gone, c);
    }
    DecisionIs(cfg, start, cs, streak, seen, r, balance, allowance);
    DecisionIs(cfg, start, cs', streak', seen', r', balance, allowance');
    ChoiceIsDistinct(cfg, start, cs, streak, seen, r);
    RestIsDecided(cs, cs', gone, Deferred(r), run.slots, run.at, Deferred(r'), run'.slots, run'.at, seen.quality,
                  balance, r.funding.value.face);
  }
}
