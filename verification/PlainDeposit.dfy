/**
 The plain pool's deposit: a transfer that is not idempotent, retried behind a balance check; when its
 final error may be called fund-free, and how often it can pay.
 */
module PlainDeposit {
  import opened Common
  import opened Sizing

  // ---------------------------------------------------------------------------------------------
  // Errors and the deposit payload
  // ---------------------------------------------------------------------------------------------

  datatype GeneralError = InvalidInput | OtherGeneral

  /** What a pool wraps: its own refusal, or any failure it cannot classify. */
  datatype Wrapped = Unaffordable(afterAttempt: bool) | Unclassified

  datatype StrategyError =
    | CriteriaNotSatisfied
    | InProgress
    | InvalidConfiguration
    | Other(error: Wrapped)
    | HoprError
    | General(general: GeneralError)

  predicate ErrorMovedNoFunds(error: Wrapped) { error == Unaffordable(false) }

  /** The errors that callers may take as proof that nothing was sent. */
  predicate MovedNoFunds(e: StrategyError) {
    match e
    case General(InvalidInput) => true
    case Other(error) => ErrorMovedNoFunds(error)
    case _ => false
  }

  datatype DepositData = DepositData(id: nat, payload: seq<nat>)

  const MARKER_LEN: nat := 64

  /** The bytes of "test", padded with zeros. */
  function Marker(): seq<nat> { [116, 101, 115, 116] + Zeros(MARKER_LEN - 4) }

  function Zeros(n: nat): (z: seq<nat>)
    ensures |z| == n && forall i :: 0 <= i < n ==> z[i] == 0
  {
    if n == 0 then [] else [0] + Zeros(n - 1)
  }

  function CheckDepositPayload(id: nat, data: DepositData): Option<StrategyError> {
    if data.id != id then Some(General(InvalidInput))
    else if data.payload != Marker() then Some(General(InvalidInput))
    else None
  }

  // ---------------------------------------------------------------------------------------------
  // One attempt, and all of them
  // ---------------------------------------------------------------------------------------------

  /** What the world does around one attempt. Before its balance read, `gift` arrives from elsewhere and
      `late` transfers of earlier attempts land. `safe` is the Safe's balance, absent when it cannot be
      read. A transfer submitted now `lands` before the next read, or is left to land late or never; it
      is `confirmed` only if it landed. */
  datatype Round = Round(gift: nat, late: nat, readable: bool, safe: Option<nat>, lands: bool, confirmed: bool)

  datatype Outcome = Deposited | Failed(error: StrategyError)

  /** The destination's balance, transfers submitted, and how many of them have landed. */
  datatype State = State(dest: nat, submitted: nat, landed: nat)

  predicate Possible(s: State, r: Round) { s.landed + r.late <= s.submitted && (r.confirmed ==> r.lands) }

  /** The destination as the attempt's read would see it. */
  function Arrived(s: State, r: Round, amount: nat): State {
    s.(dest := s.dest + r.gift + r.late * amount, landed := s.landed + r.late)
  }

  function Attempt(s: State, r: Round, amount: nat, reserve: nat): (State, Outcome) {
    var t := Arrived(s, r, amount);
    if !r.readable then (t, Failed(Other(Unclassified)))
    else if t.dest >= amount then (t, Deposited)
    else if r.safe.None? then (t, Failed(Other(Unclassified)))
    else if r.safe.value < SatAdd(amount, reserve) then (t, Failed(Other(Unaffordable(t.submitted > 0))))
    else
      var sent := t.(submitted := t.submitted + 1);
      var u := if r.lands then sent.(dest := t.dest + amount, landed := t.landed + 1) else sent;
      (u, if r.confirmed then Deposited else Failed(Other(Unclassified)))
  }

  /** Every round can happen in the state its predecessors lead to. */
  ghost predicate PossibleRun(rounds: seq<Round>, dest: nat, amount: nat, reserve: nat) {
    rounds == []
    || (PossibleRun(rounds[..|rounds| - 1], dest, amount, reserve)
        && Possible(Retried(rounds[..|rounds| - 1], dest, amount, reserve).0, rounds[|rounds| - 1]))
  }

  /** After the attempts of these rounds; success ends them early. Without an attempt there is nothing to
      report, which the placeholder failure stands for. */
  function Retried(rounds: seq<Round>, dest: nat, amount: nat, reserve: nat): (State, Outcome) {
    if rounds == [] then (State(dest, 0, 0), Failed(InProgress))
    else
      var (s, o) := Retried(rounds[..|rounds| - 1], dest, amount, reserve);
      if o.Deposited? then (s, o) else Attempt(s, rounds[|rounds| - 1], amount, reserve)
  }

  /** The flag shared by the attempts and what they have done to the world. */
  class Deposit {
    const amount: nat
    const reserve: nat
    var afterAttempt: bool
    var dest: nat
    var submitted: nat
    var landed: nat

    constructor (amount: nat, reserve: nat, dest: nat)
      ensures this.amount == amount && this.reserve == reserve && Contents() == State(dest, 0, 0) && Valid()
    {
      this.amount, this.reserve, this.dest := amount, reserve, dest;
      afterAttempt, submitted, landed := false, 0, 0;
    }

    function Contents(): State
      reads this
    {
      State(dest, submitted, landed)
    }

    /** The flag says exactly whether a transfer was submitted. */
    ghost predicate Valid()
      reads this
    {
      afterAttempt <==> submitted > 0
    }

    method DepositOnce(r: Round) returns (outcome: Outcome)
      requires Valid() && Possible(Contents(), r)
      modifies this
      ensures Valid() && (Contents(), outcome) == Attempt(old(Contents()), r, amount, reserve)
    {
      dest, landed := dest + r.gift + r.late * amount, landed + r.late;
      if !r.readable {
        return Failed(Other(Unclassified));
      }
      if dest >= amount {
        return Deposited;
      }
      if r.safe.None? {
        return Failed(Other(Unclassified));
      }
      var required := SatAdd(amount, reserve);
      if r.safe.value < required {
        return Failed(Other(Unaffordable(afterAttempt)));
      }
      afterAttempt := true;
      submitted := submitted + 1;
      if r.lands {
        dest, landed := dest + amount, landed + 1;
      }
      return if r.confirmed then Deposited else Failed(Other(Unclassified));
    }

    /** Checks the payload, then attempts once and retries at most `retries` times. */
    method DepositFundsTo(id: nat, data: DepositData, retries: nat, rounds: seq<Round>)
      returns (outcome: Outcome, used: nat)
      requires Valid() && submitted == landed == 0
      requires |rounds| == retries + 1 && PossibleRun(rounds, dest, amount, reserve)
      modifies this
      ensures Valid() && used <= |rounds|
      ensures match CheckDepositPayload(id, data)
              case Some(error) => outcome == Failed(error) && used == 0 && Contents() == old(Contents())
              case None => used > 0 && (used < |rounds| ==> outcome == Deposited)
                           && (Contents(), outcome) == Retried(rounds, old(dest), amount, reserve)
                           && (Contents(), outcome) == Retried(rounds[..used], old(dest), amount, reserve)
    {
      hide Attempt;
      var refusal := CheckDepositPayload(id, data);
      if refusal.Some? {
        return Failed(refusal.value), 0;
      }
      outcome, used := Failed(InProgress), 0;
      while used < |rounds| && outcome != Deposited
        invariant used <= |rounds| && Valid()
        invariant (Contents(), outcome) == Retried(rounds[..used], old(dest), amount, reserve)
        invariant used == 0 ==> outcome != Deposited
      {
        PossiblePrefix(rounds, used + 1, old(dest), amount, reserve);
        RetriedNext(rounds, used, old(dest), amount, reserve);
        outcome := DepositOnce(rounds[used]);
        used := used + 1;
      }
      DepositedStays(rounds, used, old(dest), amount, reserve);
    }
  }

  /** What one attempt does, said of the balances alone: it sends the transfer exactly when the destination can be
      read and lacks the amount and the Safe can be read and covers amount and reserve; it succeeds exactly when
      the destination was found to hold the amount or the transfer was confirmed; and it fails for want of funds
      exactly when the Safe was read and does not cover them. */
  lemma OneAttempt(s: State, r: Round, amount: nat, reserve: nat)
    ensures var (u, o) := Attempt(s, r, amount, reserve);
            var dest := s.dest + r.gift + r.late * amount;
            var covered := r.safe.Some? && (r.safe.value >= amount + reserve || r.safe.value >= U256_MAX);
            var sends := r.readable && dest < amount && covered;
            && u.submitted == s.submitted + (if sends then 1 else 0)
            && u.landed == s.landed + r.late + (if sends && r.lands then 1 else 0)
            && u.dest == dest + (if sends && r.lands then amount else 0)
            && (o.Deposited? <==> r.readable && (dest >= amount || (sends && r.confirmed)))
            && (o == Failed(Other(Unaffordable(s.submitted > 0))) <==>
                  r.readable && dest < amount && r.safe.Some? && !covered)
            && (o.Failed? ==> o.error == Other(Unclassified) || o.error == Other(Unaffordable(s.submitted > 0)))
  {}

  lemma {:induction false} PossiblePrefix(rounds: seq<Round>, n: nat, dest: nat, amount: nat, reserve: nat)
    requires PossibleRun(rounds, dest, amount, reserve) && n <= |rounds|
    ensures PossibleRun(rounds[..n], dest, amount, reserve)
    decreases |rounds|
  {
    if n < |rounds| {
      PossiblePrefix(rounds[..|rounds| - 1], n, dest, amount, reserve);
      assert rounds[..|rounds| - 1][..n] == rounds[..n];
    } else {
      assert rounds[..n] == rounds;
    }
  }

  lemma RetriedNext(rounds: seq<Round>, n: nat, dest: nat, amount: nat, reserve: nat)
    requires n < |rounds| && PossibleRun(rounds[..n + 1], dest, amount, reserve)
    requires !Retried(rounds[..n], dest, amount, reserve).1.Deposited?
    ensures Possible(Retried(rounds[..n], dest, amount, reserve).0, rounds[n])
    ensures Retried(rounds[..n + 1], dest, amount, reserve)
         == Attempt(Retried(rounds[..n], dest, amount, reserve).0, rounds[n], amount, reserve)
  {
    assert rounds[..n + 1][..n] == rounds[..n];
  }

  lemma {:induction false} DepositedStays(rounds: seq<Round>, n: nat, dest: nat, amount: nat, reserve: nat)
    requires n <= |rounds| && (n == |rounds| || Retried(rounds[..n], dest, amount, reserve).1.Deposited?)
    ensures Retried(rounds, dest, amount, reserve) == Retried(rounds[..n], dest, amount, reserve)
    decreases |rounds|
  {
    if n < |rounds| {
      assert rounds[..|rounds| - 1][..n] == rounds[..n];
      DepositedStays(rounds[..|rounds| - 1], n, dest, amount, reserve);
    } else {
      assert rounds[..n] == rounds;
    }
  }

  // ---------------------------------------------------------------------------------------------
  // When an error is fund-free
  // ---------------------------------------------------------------------------------------------

  /** The affordability gate refused this attempt. */
  predicate Gated(s: State, r: Round, amount: nat, reserve: nat) {
    r.readable && Arrived(s, r, amount).dest < amount && r.safe.Some? && r.safe.value < SatAdd(amount, reserve)
  }

  /** Attempt `i` gets as far as sending the transfer. */
  predicate SubmitsAt(rounds: seq<Round>, i: nat, dest: nat, amount: nat, reserve: nat)
    requires i < |rounds|
  {
    var (s, o) := Retried(rounds[..i], dest, amount, reserve);
    var r := rounds[i];
    && !o.Deposited? && r.readable && Arrived(s, r, amount).dest < amount
    && r.safe.Some? && r.safe.value >= SatAdd(amount, reserve)
  }

  lemma {:induction false} NothingSubmittedIff(rounds: seq<Round>, dest: nat, amount: nat, reserve: nat)
    ensures Retried(rounds, dest, amount, reserve).0.submitted == 0 <==>
            forall i :: 0 <= i < |rounds| ==> !SubmitsAt(rounds, i, dest, amount, reserve)
  {
    if rounds != [] {
      var n := |rounds| - 1;
      var front := rounds[..n];
      NothingSubmittedIff(front, dest, amount, reserve);
      assert Retried(rounds, dest, amount, reserve).0.submitted
          == Retried(front, dest, amount, reserve).0.submitted
             + if SubmitsAt(rounds, n, dest, amount, reserve) then 1 else 0;
      forall i | 0 <= i < n
        ensures SubmitsAt(front, i, dest, amount, reserve) <==> SubmitsAt(rounds, i, dest, amount, reserve)
      {
        assert front[..i] == rounds[..i];
      }
      hide SubmitsAt, Retried;
      assert (forall i :: 0 <= i < n ==> !SubmitsAt(front, i, dest, amount, reserve))
        <==> (forall i :: 0 <= i < n ==> !SubmitsAt(rounds, i, dest, amount, reserve));
    }
  }

  /** A final error is fund-free exactly when the gate refused the last attempt and no attempt ever sent
      the transfer; then nothing was submitted and nothing landed, for any retry count and any pattern of
      read errors, refusals and ambiguous transfers. */
  lemma FundFreeExactlyWhenNothingWasSent(rounds: seq<Round>, dest: nat, amount: nat, reserve: nat)
    requires rounds != [] && PossibleRun(rounds, dest, amount, reserve)
    requires Retried(rounds, dest, amount, reserve).1.Failed?
    ensures var (s, o) := Retried(rounds, dest, amount, reserve);
            var before := Retried(rounds[..|rounds| - 1], dest, amount, reserve).0;
            && (MovedNoFunds(o.error) <==>
                  Gated(before, rounds[|rounds| - 1], amount, reserve)
                  && forall i :: 0 <= i < |rounds| ==> !SubmitsAt(rounds, i, dest, amount, reserve))
            && (MovedNoFunds(o.error) ==> s.submitted == 0 && s.landed == 0)
  {
    NothingSubmittedIff(rounds, dest, amount, reserve);
    DestinationHoldsWhatLanded(rounds, dest, amount, reserve);
  }

  /** Exactly two errors are fund-free: an invalid input, and a refusal for want of funds before anything was sent. */
  lemma OnlyTwoErrorsAreFundFree(e: StrategyError)
    ensures MovedNoFunds(e) <==> e == General(InvalidInput) || e == Other(Unaffordable(false))
  {}

  /** A payload is refused unless it is made out to the deposit's identifier and reads "test", padded with zeros to
      64 bytes; the refusal is fund-free, and nothing was attempted. */
  lemma RefusedPayloadIsFundFree(id: nat, data: DepositData)
    ensures CheckDepositPayload(id, data).None? <==>
              && data.id == id && |data.payload| == 64
              && (forall i :: 0 <= i < 4 ==> data.payload[i] == "test"[i] as nat)
              && (forall i :: 4 <= i < 64 ==> data.payload[i] == 0)
    ensures CheckDepositPayload(id, data).Some? ==> MovedNoFunds(CheckDepositPayload(id, data).value)
  {
    hide Zeros;
    var zeros := Zeros(60);
    assert Marker() == [116, 101, 115, 116] + zeros;
    forall i | 4 <= i < 64 ensures Marker()[i] == 0 {
      assert Marker()[i] == zeros[i - 4];
    }
    assert data.payload == Marker() <==>
      |data.payload| == 64 && forall i :: 0 <= i < 64 ==> data.payload[i] == Marker()[i];
  }

  // ---------------------------------------------------------------------------------------------
  // How often it can pay
  // ---------------------------------------------------------------------------------------------

  /** Transfers of earlier attempts that landed late, while the deposit was still being attempted. */
  function LateLandings(rounds: seq<Round>, dest: nat, amount: nat, reserve: nat): nat {
    if rounds == [] then 0
    else
      var front := rounds[..|rounds| - 1];
      LateLandings(front, dest, amount, reserve)
      + if Retried(front, dest, amount, reserve).1.Deposited? then 0 else rounds[|rounds| - 1].late
  }

  /** Some attempt sent a transfer that landed before the next balance read. */
  predicate LandsPromptly(rounds: seq<Round>, dest: nat, amount: nat, reserve: nat) {
    exists i :: 0 <= i < |rounds| && LandsAt(rounds, i, dest, amount, reserve)
  }

  predicate LandsAt(rounds: seq<Round>, i: nat, dest: nat, amount: nat, reserve: nat)
    requires i < |rounds|
  {
    SubmitsAt(rounds, i, dest, amount, reserve) && rounds[i].lands
  }

  lemma LandedCovers(landed: nat, amount: nat)
    requires landed >= 1
    ensures landed * amount >= amount
  {
    assert (landed - 1) * amount >= 0;
  }

  lemma OneMoreLanded(landed: nat, late: nat, amount: nat)
    ensures (landed + late) * amount == landed * amount + late * amount
  {}

  /** Only submitted transfers land, the destination holds all that did, and success means the deposit is
      there. */
  lemma {:induction false} DestinationHoldsWhatLanded(rounds: seq<Round>, dest: nat, amount: nat, reserve: nat)
    requires PossibleRun(rounds, dest, amount, reserve)
    ensures var (s, o) := Retried(rounds, dest, amount, reserve);
            && s.landed <= s.submitted <= |rounds|
            && s.dest >= dest + s.landed * amount
            && (o.Deposited? ==> s.dest >= amount)
  {
    if rounds != [] {
      var n := |rounds| - 1;
      var front, r := rounds[..n], rounds[n];
      DestinationHoldsWhatLanded(front, dest, amount, reserve);
      var (s, o) := Retried(front, dest, amount, reserve);
      if !o.Deposited? {
        OneMoreLanded(s.landed, r.late, amount);
        OneMoreLanded(s.landed + r.late, 1, amount);
      }
    }
  }

  lemma LandsPromptlyNext(rounds: seq<Round>, dest: nat, amount: nat, reserve: nat)
    requires rounds != []
    ensures LandsPromptly(rounds, dest, amount, reserve) <==>
            LandsPromptly(rounds[..|rounds| - 1], dest, amount, reserve)
            || LandsAt(rounds, |rounds| - 1, dest, amount, reserve)
  {
    var n := |rounds| - 1;
    var front := rounds[..n];
    forall i | 0 <= i < n
      ensures LandsAt(front, i, dest, amount, reserve) <==> LandsAt(rounds, i, dest, amount, reserve)
    {
      assert front[..i] == rounds[..i];
    }
    hide LandsAt;
    if i :| 0 <= i < n && LandsAt(rounds, i, dest, amount, reserve) {
      assert LandsAt(front, i, dest, amount, reserve);
    }
    if i :| 0 <= i < n && LandsAt(front, i, dest, amount, reserve) {
      assert LandsAt(rounds, i, dest, amount, reserve);
    }
  }

  /** `after` of the transfers sent land once the attempts are over. */
  predicate MayLandAfter(rounds: seq<Round>, dest: nat, amount: nat, reserve: nat, after: nat) {
    var s := Retried(rounds, dest, amount, reserve).0;
    s.landed + after <= s.submitted
  }

  /** How often the deposit is paid in the end. */
  function Paid(rounds: seq<Round>, dest: nat, amount: nat, reserve: nat, after: nat): nat {
    Retried(rounds, dest, amount, reserve).0.landed + after
  }

  /** What lands while the deposit is attempted, exactly: every transfer that lands late, and at most one
      that lands promptly, because after any landing no attempt sends another. */
  lemma {:induction false} LandedSoFarExactly(rounds: seq<Round>, dest: nat, amount: nat, reserve: nat)
    requires PossibleRun(rounds, dest, amount, reserve)
    ensures Retried(rounds, dest, amount, reserve).0.landed
         == LateLandings(rounds, dest, amount, reserve) + if LandsPromptly(rounds, dest, amount, reserve) then 1 else 0
  {
    if rounds != [] {
      var n := |rounds| - 1;
      var front, r := rounds[..n], rounds[n];
      LandedSoFarExactly(front, dest, amount, reserve);
      LandsPromptlyNext(rounds, dest, amount, reserve);
      DestinationHoldsWhatLanded(front, dest, amount, reserve);
      hide PossibleRun, LandsPromptly;
      var (s, o) := Retried(front, dest, amount, reserve);
      OneMoreLanded(s.landed, r.late, amount);
      if s.landed + r.late >= 1 {
        LandedCovers(s.landed + r.late, amount);
      }
    }
  }

  /** How often the deposit is paid, exactly: once for each transfer that lands late or after the attempts
      are over, and once more if an attempt's transfer lands promptly. */
  lemma LandingsExactly(rounds: seq<Round>, dest: nat, amount: nat, reserve: nat, after: nat)
    requires PossibleRun(rounds, dest, amount, reserve) && MayLandAfter(rounds, dest, amount, reserve, after)
    ensures Paid(rounds, dest, amount, reserve, after)
         == LateLandings(rounds, dest, amount, reserve) + after
            + if LandsPromptly(rounds, dest, amount, reserve) then 1 else 0
  {
    hide Retried, PossibleRun, LateLandings, LandsPromptly, MayLandAfter;
    LandedSoFarExactly(rounds, dest, amount, reserve);
  }

  /** So it is paid at most once exactly when none lands late or after, or a single one does and none lands
      promptly. */
  lemma PaidAtMostOnceExactlyWhen(rounds: seq<Round>, dest: nat, amount: nat, reserve: nat, after: nat)
    requires PossibleRun(rounds, dest, amount, reserve) && MayLandAfter(rounds, dest, amount, reserve, after)
    ensures var late := LateLandings(rounds, dest, amount, reserve) + after;
            Paid(rounds, dest, amount, reserve, after) <= 1 <==>
            late == 0 || (late == 1 && !LandsPromptly(rounds, dest, amount, reserve))
  {
    hide Retried, PossibleRun, LateLandings, LandsPromptly, MayLandAfter, Paid;
    LandingsExactly(rounds, dest, amount, reserve, after);
  }

  /** If no transfer lands late, at most one lands while the deposit is attempted, and it is paid at most
      once exactly when none lands afterwards, or one does and none before. */
  lemma PromptLandingsPayOnce(rounds: seq<Round>, dest: nat, amount: nat, reserve: nat, after: nat)
    requires PossibleRun(rounds, dest, amount, reserve) && MayLandAfter(rounds, dest, amount, reserve, after)
    requires forall i :: 0 <= i < |rounds| ==> rounds[i].late == 0
    ensures Retried(rounds, dest, amount, reserve).0.landed <= 1
    ensures Paid(rounds, dest, amount, reserve, after) <= 1 <==>
              after == 0 || (after == 1 && !LandsPromptly(rounds, dest, amount, reserve))
  {
    hide Retried, PossibleRun, LandsPromptly, MayLandAfter, Paid;
    LandedSoFarExactly(rounds, dest, amount, reserve);
    PaidAtMostOnceExactlyWhen(rounds, dest, amount, reserve, after);
    NoLateLandings(rounds, dest, amount, reserve);
  }

  lemma {:induction false} NoLateLandings(rounds: seq<Round>, dest: nat, amount: nat, reserve: nat)
    requires forall i :: 0 <= i < |rounds| ==> rounds[i].late == 0
    ensures LateLandings(rounds, dest, amount, reserve) == 0
  {
    if rounds != [] {
      NoLateLandings(rounds[..|rounds| - 1], dest, amount, reserve);
    }
  }

  // ---------------------------------------------------------------------------------------------
  // When a transfer is sent again
  // ---------------------------------------------------------------------------------------------

  /** An attempt that sends the transfer has found none of those before it landed. */
  lemma SentAgainOnlyUnlanded(rounds: seq<Round>, i: nat, dest: nat, amount: nat, reserve: nat)
    requires i < |rounds| && PossibleRun(rounds[..i], dest, amount, reserve)
    requires SubmitsAt(rounds, i, dest, amount, reserve)
    ensures Arrived(Retried(rounds[..i], dest, amount, reserve).0, rounds[i], amount).landed == 0
  {
    DestinationHoldsWhatLanded(rounds[..i], dest, amount, reserve);
    hide PossibleRun, Retried;
    var s := Retried(rounds[..i], dest, amount, reserve).0;
    OneMoreLanded(s.landed, rounds[i].late, amount);
    if s.landed + rounds[i].late >= 1 {
      LandedCovers(s.landed + rounds[i].late, amount);
    }
  }

  /** Two attempts send the transfer, so both can land. */
  predicate SendsTwice(rounds: seq<Round>, dest: nat, amount: nat, reserve: nat) {
    exists i, j :: 0 <= i < j < |rounds| && SubmitsAt(rounds, i, dest, amount, reserve)
                   && SubmitsAt(rounds, j, dest, amount, reserve)
  }

  /** The deposit can end up paid twice, by what lands after the attempts, exactly when two of them send
      the transfer. */
  lemma {:induction false} CanPayTwiceExactlyWhen(rounds: seq<Round>, dest: nat, amount: nat, reserve: nat)
    requires PossibleRun(rounds, dest, amount, reserve)
    ensures (exists after :: MayLandAfter(rounds, dest, amount, reserve, after)
                             && Paid(rounds, dest, amount, reserve, after) >= 2) <==>
              SendsTwice(rounds, dest, amount, reserve)
  {
    SendsTwiceIff(rounds, dest, amount, reserve);
    DestinationHoldsWhatLanded(rounds, dest, amount, reserve);
    hide SendsTwice, PossibleRun, Retried;
    var s := Retried(rounds, dest, amount, reserve).0;
    var all: nat := s.submitted - s.landed;
    assert MayLandAfter(rounds, dest, amount, reserve, all)
        && Paid(rounds, dest, amount, reserve, all) == s.submitted;
  }

  lemma {:induction false} SendsTwiceIff(rounds: seq<Round>, dest: nat, amount: nat, reserve: nat)
    ensures Retried(rounds, dest, amount, reserve).0.submitted >= 2 <==> SendsTwice(rounds, dest, amount, reserve)
  {
    if rounds != [] {
      var n := |rounds| - 1;
      var front := rounds[..n];
      SendsTwiceIff(front, dest, amount, reserve);
      NothingSubmittedIff(front, dest, amount, reserve);
      assert Retried(rounds, dest, amount, reserve).0.submitted
          == Retried(front, dest, amount, reserve).0.submitted
             + if SubmitsAt(rounds, n, dest, amount, reserve) then 1 else 0;
      forall i | 0 <= i < n
        ensures SubmitsAt(front, i, dest, amount, reserve) <==> SubmitsAt(rounds, i, dest, amount, reserve)
      {
        assert front[..i] == rounds[..i];
      }
      hide SubmitsAt, Retried;
    }
  }

  /** A transfer that lands only after the next balance read can be paid a second time. */
  lemma LateLandingPaysTwice(amount: nat, reserve: nat, rich: nat)
    requires amount > 0 && rich >= SatAdd(amount, reserve)
    ensures exists rounds: seq<Round> ::
              PossibleRun(rounds, 0, amount, reserve) && Retried(rounds, 0, amount, reserve).0.landed == 2
  {
    var lost := Round(0, 0, true, Some(rich), false, false);
    var again := Round(0, 0, true, Some(rich), true, false);
    var late := Round(0, 1, true, Some(rich), false, false);
    var rounds := [lost, again, late];
    assert rounds[..2] == [lost, again] && [lost, again][..1] == [lost] && [lost][..0] == [];
    assert Retried([lost], 0, amount, reserve) == (State(0, 1, 0), Failed(Other(Unclassified)));
    assert Retried([lost, again], 0, amount, reserve) == (State(amount, 2, 1), Failed(Other(Unclassified)));
    assert Retried(rounds, 0, amount, reserve) == (State(2 * amount, 2, 2), Deposited);
    assert PossibleRun([lost], 0, amount, reserve) && PossibleRun([lost, again], 0, amount, reserve);
    assert PossibleRun(rounds, 0, amount, reserve);
  }

  /** So can one that lands only after a later attempt succeeded: nothing lands late, the deposit is
      reported as made, and it is still paid a second time. */
  lemma LandingAfterSuccessPaysTwice(amount: nat, reserve: nat, rich: nat)
    requires amount > 0 && rich >= SatAdd(amount, reserve)
    ensures exists rounds: seq<Round> ::
              && PossibleRun(rounds, 0, amount, reserve) && MayLandAfter(rounds, 0, amount, reserve, 1)
              && LateLandings(rounds, 0, amount, reserve) == 0 && Retried(rounds, 0, amount, reserve).1.Deposited?
              && Paid(rounds, 0, amount, reserve, 1) == 2
  {
    var lost := Round(0, 0, true, Some(rich), false, false);
    var again := Round(0, 0, true, Some(rich), true, true);
    var rounds := [lost, again];
    assert rounds[..1] == [lost] && [lost][..0] == [];
    assert Retried([lost], 0, amount, reserve) == (State(0, 1, 0), Failed(Other(Unclassified)));
    assert Retried(rounds, 0, amount, reserve) == (State(amount, 2, 1), Deposited);
    assert PossibleRun([lost], 0, amount, reserve) && PossibleRun(rounds, 0, amount, reserve);
    NoLateLandings(rounds, 0, amount, reserve);
  }
}
