/**
 Sizing of channel stakes from data capacity and ticket economics. Amounts are wei below 2^256, as
 the source stores them; probabilities and the ticket-count ratio are exact reals.
 */
module Sizing {
  import opened Common

  const U256_MAX: nat := 0x1_0000_0000_0000_0000_0000_0000_0000_0000_0000_0000_0000_0000_0000_0000_0000_0000 - 1
  const U128_MAX: nat := 0x1_0000_0000_0000_0000_0000_0000_0000_0000 - 1

  const U64_MAX: nat := 0x1_0000_0000_0000_0000 - 1

  /** The smallest win probability the source computes with: the spacing of doubles at one. */
  const WIN_PROB_FLOOR: real := 1.0 / 4503599627370496.0

  function SatAdd(a: nat, b: nat): nat { Min(a + b, U256_MAX) }

  function SatMul(a: nat, b: nat): nat { Min(a * b, U256_MAX) }

  /** `None` stands for a probability that is not a number. */
  function ClampedWinProb(winProb: Option<real>): (p: real)
    ensures 0.0 < p <= 1.0
  {
    match winProb
    case None => WIN_PROB_FLOOR
    case Some(p) => if p < WIN_PROB_FLOOR then WIN_PROB_FLOOR else if p > 1.0 then 1.0 else p
  }

  /** One winning ticket: the price divided by the probability, truncated, then taken per hop. */
  function WinningTicketFaceValue(price: nat, winProb: Option<real>, hops: nat): nat {
    SatMul((price as real / ClampedWinProb(winProb)).Floor, hops)
  }

  /** The untruncated face value, used only to count tickets. It sees the low 128 bits of the price. */
  function FaceValueEstimate(price: nat, winProb: Option<real>, hops: nat): (f: real)
    ensures f >= 0.0
  {
    (price % (U128_MAX + 1)) as real * hops as real / ClampedWinProb(winProb)
  }

  /** The real-valued face value of the whole price. */
  function FullFaceValue(price: nat, winProb: Option<real>, hops: nat): (f: real)
    ensures f >= 0.0
  {
    price as real * hops as real / ClampedWinProb(winProb)
  }

  function Round(x: real): int
    requires x >= 0.0
  {
    (x + 0.5).Floor
  }

  function Ceil(x: real): int { -((-x).Floor) }

  /** The ceiling, except that a count within `snap` of a whole number, relatively, is that number. */
  function WholeTickets(tickets: real, snap: real): int
    requires tickets >= 0.0
  {
    var nearest := Round(tickets);
    var gap := if tickets >= nearest as real then tickets - nearest as real else nearest as real - tickets;
    if gap <= snap * tickets then nearest else Ceil(tickets)
  }

  /** How far above the mean drain a stake is sized; the probabilistic margin is given in standard
      deviations already multiplied out. */
  datatype SizingMode = Deterministic | Probabilistic(margin: real)

  function Target(packets: nat, price: nat, hops: nat, mode: SizingMode): real {
    var mean := packets as real * hops as real * (price % (U128_MAX + 1)) as real;
    match mode
    case Deterministic => mean
    case Probabilistic(margin) => mean + margin
  }

  function MaxReal(a: real, b: real): real { if a <= b then b else a }

  function Packets(bytes: nat, payload: nat): nat
    requires payload > 0
  {
    (bytes + payload - 1) / payload
  }

  /** The real-valued number of tickets a non-zero capacity needs, at least one. */
  function TicketsNeeded(bytes: nat, payload: nat, price: nat, winProb: Option<real>, hops: nat, mode: SizingMode)
    : (tickets: real)
    requires payload > 0
    ensures tickets >= 0.0
  {
    var face := FaceValueEstimate(price, winProb, hops);
    var target := MaxReal(MaxReal(Target(Packets(bytes, payload), price, hops, mode), face), 0.0);
    if face > 0.0 then target / face else 1.0
  }

  /** Tickets a non-zero capacity is charged for. */
  function TicketCount(bytes: nat, payload: nat, price: nat, winProb: Option<real>,
                       hops: nat, mode: SizingMode, snap: real): nat
    requires payload > 0
  {
    if FaceValueEstimate(price, winProb, hops) > 0.0
    then Max(WholeTickets(TicketsNeeded(bytes, payload, price, winProb, hops, mode), snap), 0)
    else 1
  }

  function CapacityToBalance(bytes: nat, payload: nat, price: nat, winProb: Option<real>,
                             hops: nat, mode: SizingMode, snap: real): nat
    requires payload > 0
  {
    if bytes == 0 then 0
    else
      var face := WinningTicketFaceValue(price, winProb, hops);
      if face == 0 then 0
      else SatMul(face, Min(TicketCount(bytes, payload, price, winProb, hops, mode, snap), U128_MAX))
  }

  // ---------------------------------------------------------------------------------------------
  // The stake against the real-valued target
  // ---------------------------------------------------------------------------------------------

  lemma RoundIsNear(x: real)
    requires x >= 0.0
    ensures -0.5 <= Round(x) as real - x <= 0.5
    ensures x >= 1.0 ==> Round(x) >= 1
  {}

  /** A ticket count of one or more rounds to a whole count of one or more that is less than one
      ticket above it and, unless snapped down, not below it. */
  lemma WholeTicketsBound(x: real, snap: real)
    requires x >= 1.0 && snap >= 0.0
    ensures WholeTickets(x, snap) >= 1
    ensures x - snap * x <= WholeTickets(x, snap) as real < x + 1.0
  {
    RoundIsNear(x);
    assert snap * x >= 0.0;
  }

  /** With `n` the nearest whole count, halves going up: it is the count if it is within the tolerance, from above or
      from below; otherwise the count is the next whole one. */
  lemma SnapsToTheNearest(x: real, snap: real, n: int)
    requires x >= 0.0 && n as real - 0.5 <= x < n as real + 0.5
    ensures var t := WholeTickets(x, snap);
            if -(snap * x) <= x - n as real <= snap * x then t == n
            else t as real - 1.0 < x <= t as real
  {
    assert Round(x) == n;
  }

  lemma PositiveProduct(a: real, b: real)
    requires a > 0.0 && b > 0.0
    ensures a * b > 0.0
  {}

  /** A product named as one term, so that bounds on it can be chained linearly. */
  function Times(a: real, b: real): real { a * b }

  lemma ProductOrder(a: real, b: real, c: real)
    requires a <= b && c > 0.0
    ensures Times(a, c) <= Times(b, c)
  {}

  lemma StrictProductOrder(a: real, b: real, c: real)
    requires a < b && c > 0.0
    ensures Times(a, c) < Times(b, c)
  {}

  lemma TimesNext(q: real, h: real)
    ensures Times(q + 1.0, h) == Times(q, h) + h
  {}

  lemma ScaledBetween(q: real, x: real, h: real)
    requires q <= x < q + 1.0 && h > 0.0
    ensures Times(q, h) <= Times(x, h) < Times(q, h) + h
  {
    hide Times;
    ProductOrder(q, x, h);
    StrictProductOrder(x, q + 1.0, h);
    TimesNext(q, h);
  }

  lemma ScaledPriceIsNonNegative(price: nat, p: real)
    requires p > 0.0
    ensures price as real / p >= 0.0
  {}

  lemma PerHop(price: nat, winProb: Option<real>, hops: nat) returns (single: real)
    ensures single >= 0.0 && single.Floor == (price as real / ClampedWinProb(winProb)).Floor
    ensures FullFaceValue(price, winProb, hops) == Times(single, hops as real)
    ensures WinningTicketFaceValue(price, winProb, hops) == SatMul(single.Floor, hops)
  {
    hide ClampedWinProb;
    single := price as real / ClampedWinProb(winProb);
    ScaledPriceIsNonNegative(price, ClampedWinProb(winProb));
    QuotientCommutes(price as real, hops as real, ClampedWinProb(winProb));
  }

  /** Truncating once and multiplying by the hop count loses less than one wei per hop, unless the product
      saturates. */
  lemma FaceValueBound(price: nat, winProb: Option<real>, hops: nat)
    requires hops > 0
    ensures var f := WinningTicketFaceValue(price, winProb, hops);
            if (price as real / ClampedWinProb(winProb)).Floor * hops <= U256_MAX
            then f as real <= FullFaceValue(price, winProb, hops) < f as real + hops as real
            else f == U256_MAX && f as real <= FullFaceValue(price, winProb, hops)
  {
    hide ClampedWinProb, FullFaceValue, WinningTicketFaceValue, Times;
    var single := PerHop(price, winProb, hops);
    hide SatMul;
    CastProduct(single.Floor, hops);
    ScaledBetween(single.Floor as real, single, hops as real);
    if single.Floor * hops <= U256_MAX {
      SatMulExact(single.Floor, hops);
    } else {
      SatMulSaturates(single.Floor, hops);
    }
  }

  lemma SatMulSaturates(a: nat, b: nat)
    requires a * b > U256_MAX
    ensures SatMul(a, b) == U256_MAX
  {}

  lemma QuotientOrder(a: real, b: real, p: real)
    requires p > 0.0 && a < b
    ensures a / p < b / p
  {
    assert (a / p) * p == a && (b / p) * p == b;
  }

  lemma LowBits(price: nat)
    ensures price % (U128_MAX + 1) <= price
    ensures price % (U128_MAX + 1) == price <==> price <= U128_MAX
  {}

  lemma StrictlyMore(a: nat, b: nat, h: nat)
    requires a < b && h > 0
    ensures a as real * h as real < b as real * h as real
  {
    StrictProductOrder(a as real, b as real, h as real);
  }

  /** The estimate that tickets are counted with is the real-valued face value exactly for prices that fit
      128 bits. */
  lemma EstimateIsFullExactly(price: nat, winProb: Option<real>, hops: nat)
    requires hops > 0
    ensures FaceValueEstimate(price, winProb, hops) == FullFaceValue(price, winProb, hops) <==> price <= U128_MAX
  {
    hide ClampedWinProb, Times;
    var low := price % (U128_MAX + 1);
    LowBits(price);
    if price > U128_MAX {
      StrictlyMore(low, price, hops);
      QuotientOrder(low as real * hops as real, price as real * hops as real, ClampedWinProb(winProb));
    }
  }

  lemma CastProduct(a: int, b: int)
    ensures (a * b) as real == Times(a as real, b as real)
  {}

  lemma SatMulExact(a: nat, b: nat)
    requires a * b <= U256_MAX
    ensures SatMul(a, b) == a * b
  {}

  lemma QuotientCommutes(a: real, b: real, p: real)
    requires p > 0.0
    ensures a * b / p == (a / p) * b
  {
    assert (a / p) * p == a;
    assert ((a / p) * b) * p == a * b;
  }

  lemma CountTimesFaceBelow(x: real, t: real, target: real, f: real, est: real, h: real, snap: real)
    requires est > 0.0 && f <= est < f + h && t >= 1.0 && x * est == target && x - snap * x <= t
    ensures target - snap * target - t * h < t * f
  {
    var low, gap := x - snap * x, est - f;
    assert low * est == target - snap * target by {
      assert (snap * x) * est == snap * (x * est);
    }
    assert (t - low) * est >= 0.0;
    assert t * (h - gap) > 0.0;
    assert t * (h - gap) == t * h - t * gap;
    assert t * gap == t * est - t * f;
  }

  lemma CountTimesFaceAbove(x: real, t: real, target: real, f: real, est: real)
    requires est > 0.0 && f <= est && t >= 1.0 && x * est == target && t < x + 1.0
    ensures t * f < target + est
  {
    var u, gap := x + 1.0 - t, est - f;
    PositiveProduct(u, est);
    assert x == u + t - 1.0;
    assert (u + t - 1.0) * est == u * est + t * est - est;
    assert t * gap >= 0.0;
    assert t * gap == t * est - t * f;
  }

  /** For a price that fits 128 bits the tickets needed are worth the target the stake is sized for. */
  lemma NeededIsTheTarget(bytes: nat, payload: nat, price: nat, winProb: Option<real>,
                          hops: nat, mode: SizingMode, snap: real)
    requires payload > 0 && snap >= 0.0 && 0 < price <= U128_MAX && hops > 0
    ensures var full := FullFaceValue(price, winProb, hops);
            Times(TicketsNeeded(bytes, payload, price, winProb, hops, mode), full)
            == MaxReal(Target(Packets(bytes, payload), price, hops, mode), full)
  {
    hide FaceValueEstimate, FullFaceValue, Target, Packets, TicketsNeeded, TicketCount, WholeTickets,
      WinningTicketFaceValue, Times, MaxReal, ClampedWinProb;
    EstimateIsFullExactly(price, winProb, hops);
    FaceIsPositive(price, winProb, hops);
    LowBits(price);
    CountIsWhole(bytes, payload, price, winProb, hops, mode, snap);
  }

  /** Neither the face value nor the ticket count nor their product is pinned at the largest amount. */
  predicate Unsaturated(bytes: nat, payload: nat, price: nat, winProb: Option<real>,
                        hops: nat, mode: SizingMode, snap: real)
    requires payload > 0
  {
    var t := TicketCount(bytes, payload, price, winProb, hops, mode, snap);
    && (price as real / ClampedWinProb(winProb)).Floor * hops <= U256_MAX
    && t <= U128_MAX && WinningTicketFaceValue(price, winProb, hops) * t <= U256_MAX
  }

  lemma SatMulAtMost(f: nat, t: nat)
    ensures SatMul(f, Min(t, U128_MAX)) <= f * t
    ensures t <= U128_MAX && f * t <= U256_MAX ==> SatMul(f, Min(t, U128_MAX)) == f * t
  {
    if t > U128_MAX {
      assert f * U128_MAX + f * (t - U128_MAX) == f * t && f * (t - U128_MAX) >= 0;
    }
  }

  lemma StakeIsTheProduct(bytes: nat, payload: nat, price: nat, winProb: Option<real>,
                          hops: nat, mode: SizingMode, snap: real)
    requires payload > 0 && bytes > 0 && WinningTicketFaceValue(price, winProb, hops) > 0
    ensures var f := WinningTicketFaceValue(price, winProb, hops);
            var t := TicketCount(bytes, payload, price, winProb, hops, mode, snap);
            var stake := CapacityToBalance(bytes, payload, price, winProb, hops, mode, snap);
            && stake == SatMul(f, Min(t, U128_MAX)) && stake <= f * t
            && (Unsaturated(bytes, payload, price, winProb, hops, mode, snap) ==> stake == f * t)
  {
    hide TicketCount, WinningTicketFaceValue, SatMul, ClampedWinProb;
    SatMulAtMost(WinningTicketFaceValue(price, winProb, hops),
                 TicketCount(bytes, payload, price, winProb, hops, mode, snap));
  }

  /** A non-zero capacity is staked as a whole number `t >= 1` of exact face values, or pinned at the largest
      amount. The stake is less than one real-valued face value above the real-valued tickets needed and,
      unless something saturates, less than `t * hops` wei below them, up to the snap tolerance. For a price
      that fits 128 bits these tickets are worth the target the stake was sized for. */
  lemma StakeBound(bytes: nat, payload: nat, price: nat, winProb: Option<real>, hops: nat, mode: SizingMode, snap: real)
    requires payload > 0 && bytes > 0 && snap >= 0.0 && price > 0 && hops > 0
    ensures var f := WinningTicketFaceValue(price, winProb, hops);
            var full := FullFaceValue(price, winProb, hops);
            var t := TicketCount(bytes, payload, price, winProb, hops, mode, snap);
            var needed := Times(TicketsNeeded(bytes, payload, price, winProb, hops, mode), full);
            var stake := CapacityToBalance(bytes, payload, price, winProb, hops, mode, snap);
            && f > 0 && t >= 1 && stake == SatMul(f, Min(t, U128_MAX)) && stake as real < needed + full
            && (Unsaturated(bytes, payload, price, winProb, hops, mode, snap) ==>
                  stake == f * t && needed - snap * needed - t as real * hops as real < stake as real)
            && (price <= U128_MAX ==> needed == MaxReal(Target(Packets(bytes, payload), price, hops, mode), full))
  {
    hide FaceValueEstimate, FullFaceValue, Target, Packets, ClampedWinProb, WholeTickets, WinningTicketFaceValue,
      TicketCount, TicketsNeeded, MaxReal, CapacityToBalance, SatMul, Times;
    FaceValueBound(price, winProb, hops);
    FaceIsPositive(price, winProb, hops);
    CountIsWhole(bytes, payload, price, winProb, hops, mode, snap);
    StakeIsTheProduct(bytes, payload, price, winProb, hops, mode, snap);
    var f := WinningTicketFaceValue(price, winProb, hops);
    var full := FullFaceValue(price, winProb, hops);
    var t := TicketCount(bytes, payload, price, winProb, hops, mode, snap);
    var x := TicketsNeeded(bytes, payload, price, winProb, hops, mode);
    StakeAbove(x, t, f, full, snap);
    if Unsaturated(bytes, payload, price, winProb, hops, mode, snap) {
      StakeBelow(x, t, f, full, hops, snap);
    }
    if price <= U128_MAX {
      NeededIsTheTarget(bytes, payload, price, winProb, hops, mode, snap);
    }
  }

  lemma CountIsWhole(bytes: nat, payload: nat, price: nat, winProb: Option<real>,
                     hops: nat, mode: SizingMode, snap: real)
    requires payload > 0 && snap >= 0.0
    ensures var x := TicketsNeeded(bytes, payload, price, winProb, hops, mode);
            var est := FaceValueEstimate(price, winProb, hops);
            && x >= 1.0 && TicketCount(bytes, payload, price, winProb, hops, mode, snap) == WholeTickets(x, snap)
            && (est > 0.0 ==> Times(x, est) == MaxReal(Target(Packets(bytes, payload), price, hops, mode), est))
  {
    hide FaceValueEstimate, Target, Packets, WholeTickets;
    var est := FaceValueEstimate(price, winProb, hops);
    if est > 0.0 {
      var target := MaxReal(Target(Packets(bytes, payload), price, hops, mode), est);
      AtLeastOneTicket(target, est);
      WholeTicketsBound(target / est, snap);
    } else {
      OneTicketIsWhole(snap);
    }
  }

  lemma OneTicketIsWhole(snap: real)
    requires snap >= 0.0
    ensures WholeTickets(1.0, snap) == 1
  {
    assert Round(1.0) == 1;
  }

  lemma StakeBelow(x: real, t: nat, f: nat, full: real, hops: nat, snap: real)
    requires full > 0.0 && x >= 1.0 && snap >= 0.0 && hops > 0
    requires f as real <= full < f as real + hops as real
    requires t == WholeTickets(x, snap)
    ensures t >= 1
    ensures Times(x, full) - snap * Times(x, full) - t as real * hops as real < (f * t) as real
  {
    hide WholeTickets;
    WholeTicketsBound(x, snap);
    CastProduct(f, t);
    CountTimesFaceBelow(x, t as real, Times(x, full), f as real, full, hops as real, snap);
  }

  lemma StakeAbove(x: real, t: nat, f: nat, full: real, snap: real)
    requires full > 0.0 && x >= 1.0 && snap >= 0.0 && f as real <= full
    requires t == WholeTickets(x, snap)
    ensures t >= 1
    ensures (f * t) as real < Times(x, full) + full
  {
    hide WholeTickets;
    WholeTicketsBound(x, snap);
    CastProduct(f, t);
    CountTimesFaceAbove(x, t as real, Times(x, full), f as real, full);
  }

  lemma AtLeastOneTicket(target: real, est: real)
    requires est > 0.0 && target >= est
    ensures target / est >= 1.0 && (target / est) * est == target
  {
    assert (target / est - 1.0) * est == target - est;
  }

  lemma SatMulPositive(a: nat, b: nat)
    requires a >= 1 && b >= 1
    ensures SatMul(a, b) > 0
  {
    ProductAtLeast(a, b);
  }

  lemma PositiveQuotient(a: real, p: real)
    requires a > 0.0 && p > 0.0
    ensures a / p > 0.0
  {}

  lemma QuotientIsPositive(a: nat, b: nat, p: real)
    requires p > 0.0
    ensures a as real * b as real / p > 0.0 <==> a > 0 && b > 0
  {
    if a > 0 && b > 0 {
      PositiveProduct(a as real, b as real);
      PositiveQuotient(a as real * b as real, p);
    } else {
      assert a as real * b as real == 0.0;
    }
  }

  /** A face value is positive exactly for a positive price over at least one hop; the estimate of it, only
      if the price's low 128 bits are not all zero. */
  lemma FaceIsPositive(price: nat, winProb: Option<real>, hops: nat)
    ensures WinningTicketFaceValue(price, winProb, hops) > 0 <==> price > 0 && hops > 0
    ensures FaceValueEstimate(price, winProb, hops) > 0.0 <==> price % (U128_MAX + 1) > 0 && hops > 0
  {
    hide ClampedWinProb, SatMul;
    QuotientIsPositive(price % (U128_MAX + 1), hops, ClampedWinProb(winProb));
    hide FaceValueEstimate;
    var single := price as real / ClampedWinProb(winProb);
    if price > 0 && hops > 0 {
      AtLeastOneTicket(price as real, ClampedWinProb(winProb));
      SatMulPositive(single.Floor, hops);
    } else if price == 0 {
      SatMulOfZero(hops);
    } else {
      SatMulOfZero(single.Floor);
    }
  }

  lemma SatMulOfZero(a: nat)
    ensures SatMul(0, a) == 0 && SatMul(a, 0) == 0
  {}

  lemma ProductAtLeast(a: int, b: int)
    requires a >= 1 && b >= 0
    ensures a * b >= b
  {}

  /** The packets just cover the bytes. */
  lemma PacketsCoverTheBytes(bytes: nat, payload: nat)
    requires payload > 0
    ensures var n := Packets(bytes, payload);
            n * payload >= bytes && (bytes > 0 ==> (n - 1) * payload < bytes) && (bytes == 0 ==> n == 0)
  {
    var m, n := bytes + payload - 1, Packets(bytes, payload);
    assert m == n * payload + m % payload;
    assert (n - 1) * payload == n * payload - payload;
    if bytes == 0 {
      QuotientAtMost(m, payload, 0);
    }
  }

  lemma PacketsPositive(bytes: nat, payload: nat)
    requires payload > 0 && bytes > 0
    ensures Packets(bytes, payload) >= 1
  {
    assert (bytes - 1 + payload) / payload >= 1;
  }

  lemma CertainWinFace(price: nat, hops: nat)
    ensures FaceValueEstimate(price, Some(1.0), hops) == (price % (U128_MAX + 1)) as real * hops as real
    ensures WinningTicketFaceValue(price, Some(1.0), hops) == SatMul(price, hops)
  {
    assert (price as real / 1.0).Floor == price;
  }

  lemma ExactCount(n: nat, est: real, snap: real)
    requires n >= 1 && est > 0.0 && snap >= 0.0
    ensures n as real * est >= est && (n as real * est) / est == n as real
    ensures WholeTickets(n as real, snap) == n
  {
    ProductOrder(1.0, n as real, est);
    assert Round(n as real) == n;
    assert snap * n as real >= 0.0;
  }

  lemma CertainWinCount(bytes: nat, payload: nat, price: nat, hops: nat, snap: real)
    requires payload > 0 && bytes > 0 && snap >= 0.0 && price > 0 && hops > 0
    ensures TicketCount(bytes, payload, price, Some(1.0), hops, Deterministic, snap)
         == if price % (U128_MAX + 1) > 0 then Packets(bytes, payload) else 1
  {
    hide ClampedWinProb, FaceValueEstimate, WinningTicketFaceValue, WholeTickets, SatMul, Packets;
    var n, low := Packets(bytes, payload), price % (U128_MAX + 1);
    PacketsPositive(bytes, payload);
    CertainWinFace(price, hops);
    FaceIsPositive(price, Some(1.0), hops);
    if low > 0 {
      var est := FaceValueEstimate(price, Some(1.0), hops);
      ExactCount(n, est, snap);
      ProductRegrouped(n as real, hops as real, low as real);
      assert Target(n, price, hops, Deterministic) == n as real * est;
      hide Target;
      assert TicketsNeeded(bytes, payload, price, Some(1.0), hops, Deterministic) == n as real;
    }
  }

  lemma ProductRegrouped(a: real, b: real, c: real)
    ensures a * b * c == a * (c * b)
  {}

  lemma QuotientTimes(m: nat, p: nat)
    requires p > 0
    ensures (m / p) * p <= m
  {}

  lemma ProductGrows(a: int, b: int, p: nat)
    requires a <= b
    ensures a * p <= b * p
  {
    assert (b - a) * p >= 0;
  }

  lemma QuotientAtMost(m: nat, p: nat, b: nat)
    requires p > 0 && m < (b + 1) * p
    ensures m / p <= b
  {
    var q := m / p;
    QuotientTimes(m, p);
    if q > b {
      ProductGrows(b + 1, q, p);
    }
  }

  lemma PacketsWithin(bytes: nat, payload: nat)
    requires payload > 0 && bytes > 0
    ensures Packets(bytes, payload) <= bytes
  {
    assert (bytes + 1) * payload == bytes * payload + payload;
    ProductAtLeast(payload, bytes);
    QuotientAtMost(bytes + payload - 1, payload, bytes);
  }

  /** Saturating first and multiplying then is multiplying and saturating. */
  lemma SatMulTwice(a: nat, n: nat)
    requires n >= 1
    ensures SatMul(Min(a, U256_MAX), n) == Min(a * n, U256_MAX)
  {
    if a >= U256_MAX {
      ProductAtLeast(n, a);
      ProductAtLeast(n, U256_MAX);
    }
  }

  lemma SaturatedMeansOne(a: nat, n: nat)
    requires a > 0 && n >= 1
    ensures Min(a, U256_MAX) == Min(a * n, U256_MAX) <==> n == 1 || a >= U256_MAX
  {
    if n > 1 {
      assert a * n == a + a * (n - 1) && a * (n - 1) > 0;
    }
  }

  /** When every ticket wins, a deterministic stake is one ticket per packet and hop, as far as that can be
      represented, if and only if the price's low 128 bits are not all zero, or there is one packet only, or
      one packet's tickets saturate already. */
  lemma CertainWinChargesNoExtra(bytes: nat, payload: nat, price: nat, hops: nat, snap: real)
    requires payload > 0 && 0 < bytes <= U64_MAX && snap >= 0.0 && price > 0 && hops > 0
    ensures var stake, n := CapacityToBalance(bytes, payload, price, Some(1.0), hops, Deterministic, snap),
                            Packets(bytes, payload);
            stake == Min(price * hops * n, U256_MAX) <==>
              price % (U128_MAX + 1) > 0 || n == 1 || price * hops >= U256_MAX
  {
    hide ClampedWinProb, FaceValueEstimate, WinningTicketFaceValue, WholeTickets, Packets, TicketCount;
    var n := Packets(bytes, payload);
    PacketsPositive(bytes, payload);
    PacketsWithin(bytes, payload);
    ProductAtLeast(hops, price);
    CertainWinFace(price, hops);
    CertainWinCount(bytes, payload, price, hops, snap);
    var a := price * hops;
    assert SatMul(price, hops) == Min(a, U256_MAX);
    SatMulTwice(a, n);
    SatMulTwice(a, 1);
    SaturatedMeansOne(a, n);
    hide SatMul;
  }

  // ---------------------------------------------------------------------------------------------
  // A stake against the traffic it is for
  // ---------------------------------------------------------------------------------------------

  /** `p` is the chance a ticket wins with: what was announced, brought between the spacing of doubles at one and
      one; the smallest chance if that is not a number. */
  ghost predicate WinsWith(winProb: Option<real>, p: real) {
    && (winProb.Some? && 1.0 / 4503599627370496.0 <= winProb.value <= 1.0 ==> p == winProb.value)
    && (winProb.Some? && winProb.value > 1.0 ==> p == 1.0)
    && (winProb.None? || winProb.value < 1.0 / 4503599627370496.0 ==> p == 1.0 / 4503599627370496.0)
  }

  /** What a ticket must be worth when it wins for the tickets to pay the price over all hops on average. */
  ghost predicate PaysOnAverage(face: real, price: nat, hops: nat, p: real) {
    face * p == price as real * hops as real
  }

  lemma FullFacePaysOnAverage(price: nat, winProb: Option<real>, hops: nat, p: real)
    requires WinsWith(winProb, p)
    ensures p == ClampedWinProb(winProb) && PaysOnAverage(FullFaceValue(price, winProb, hops), price, hops, p)
  {
    assert p == ClampedWinProb(winProb);
    hide ClampedWinProb;
    var total := price as real * hops as real;
    assert total / p * p == total;
  }

  /** A winning ticket is worth, to within a wei per hop, what makes the tickets pay on average. */
  lemma TicketsPayThePrice(price: nat, winProb: Option<real>, hops: nat, p: real, face: real)
    requires hops > 0 && WinsWith(winProb, p) && PaysOnAverage(face, price, hops, p)
    requires (price as real / p).Floor * hops <= U256_MAX
    ensures WinningTicketFaceValue(price, winProb, hops) as real <= face
          < WinningTicketFaceValue(price, winProb, hops) as real + hops as real
  {
    FullFacePaysOnAverage(price, winProb, hops, p);
    hide ClampedWinProb, WinningTicketFaceValue;
    FaceValueBound(price, winProb, hops);
    var full := FullFaceValue(price, winProb, hops);
    hide FullFaceValue;
    QuotientIsUnique(full, face, p);
  }

  lemma QuotientIsUnique(a: real, b: real, p: real)
    requires p > 0.0 && a * p == b * p
    ensures a == b
  {
    assert (a - b) * p == 0.0;
  }

  lemma LeastPackets(bytes: nat, payload: nat, n: nat)
    requires payload > 0 && bytes > 0 && JustCarries(n, bytes, payload)
    ensures Packets(bytes, payload) == n
  {
    var m := Packets(bytes, payload);
    PacketsCoverTheBytes(bytes, payload);
    hide Packets;
    if m < n {
      ProductGrows(m, n - 1, payload);
    } else if n < m {
      ProductGrows(n, m - 1, payload);
    }
  }

  lemma StakeNearWorth(bytes: nat, payload: nat, price: nat, winProb: Option<real>, hops: nat, mode: SizingMode,
                       snap: real, full: real, worth: real)
    requires payload > 0 && bytes > 0 && snap >= 0.0 && 0 < price <= U128_MAX && hops > 0
    requires Unsaturated(bytes, payload, price, winProb, hops, mode, snap)
    requires full == FullFaceValue(price, winProb, hops)
    requires worth == MaxReal(Target(Packets(bytes, payload), price, hops, mode), full)
    ensures CapacityToBalance(bytes, payload, price, winProb, hops, mode, snap) as real < worth + full
    ensures exists t: nat ::
              && t >= 1
              && CapacityToBalance(bytes, payload, price, winProb, hops, mode, snap)
                 == WinningTicketFaceValue(price, winProb, hops) * t
              && worth - snap * worth - t as real * hops as real
                 < CapacityToBalance(bytes, payload, price, winProb, hops, mode, snap) as real
  {
    hide *;
    StakeBound(bytes, payload, price, winProb, hops, mode, snap);
    var needed := Times(TicketsNeeded(bytes, payload, price, winProb, hops, mode), full);
    assert needed == worth;
    assert snap * needed == snap * worth;
    var t := TicketCount(bytes, payload, price, winProb, hops, mode, snap);
    assert t >= 1 && CapacityToBalance(bytes, payload, price, winProb, hops, mode, snap)
                     == WinningTicketFaceValue(price, winProb, hops) * t;
  }

  /** `n` packets are the fewest that carry the bytes. */
  ghost predicate JustCarries(n: nat, bytes: nat, payload: nat) { n * payload >= bytes && (n - 1) * payload < bytes }

  /** What so many packets cost: the price per hop for each, and the margin of a probabilistic sizing. */
  ghost predicate CostsSoMuch(cost: real, n: nat, price: nat, hops: nat, mode: SizingMode) {
    cost == n as real * hops as real * price as real + if mode.Probabilistic? then mode.margin else 0.0
  }

  lemma TrafficIsTheTarget(cost: real, n: nat, price: nat, hops: nat, mode: SizingMode, face: real)
    requires price <= U128_MAX && CostsSoMuch(cost, n, price, hops, mode)
    ensures MaxReal(Target(n, price, hops, mode), face) == MaxReal(cost, face)
  {
    LowBits(price);
  }

  /** The stake for a capacity pays for its traffic or for one ticket, whichever costs more: it is a whole number
      `t` of tickets, less than one ticket above that cost, and less than `t * hops` wei below it, up to the
      snap tolerance. */
  lemma StakePaysForTheTraffic(bytes: nat, payload: nat, price: nat, winProb: Option<real>, hops: nat,
                               mode: SizingMode, snap: real, p: real, face: real, n: nat, cost: real, worth: real)
    requires payload > 0 && bytes > 0 && snap >= 0.0 && 0 < price <= U128_MAX && hops > 0
    requires WinsWith(winProb, p) && PaysOnAverage(face, price, hops, p)
    requires JustCarries(n, bytes, payload) && CostsSoMuch(cost, n, price, hops, mode)
    requires worth == if cost >= face then cost else face
    requires Unsaturated(bytes, payload, price, winProb, hops, mode, snap)
    ensures CapacityToBalance(bytes, payload, price, winProb, hops, mode, snap) as real < worth + face
    ensures exists t: nat ::
              && t >= 1
              && CapacityToBalance(bytes, payload, price, winProb, hops, mode, snap)
                 == WinningTicketFaceValue(price, winProb, hops) * t
              && worth - snap * worth - t as real * hops as real
                 < CapacityToBalance(bytes, payload, price, winProb, hops, mode, snap) as real
  {
    assert MaxReal(cost, face) == worth;
    hide *;
    FullFacePaysOnAverage(price, winProb, hops, p);
    LeastPackets(bytes, payload, n);
    TrafficIsTheTarget(cost, n, price, hops, mode, face);
    AveragesOnce(FullFaceValue(price, winProb, hops), face, price, hops, p);
    StakeNearWorth(bytes, payload, price, winProb, hops, mode, snap, face, worth);
  }

  lemma AveragesOnce(a: real, b: real, price: nat, hops: nat, p: real)
    requires p > 0.0 && PaysOnAverage(a, price, hops, p) && PaysOnAverage(b, price, hops, p)
    ensures a == b
  {
    QuotientIsUnique(a, b, p);
  }

  // ---------------------------------------------------------------------------------------------
  // Resolved amounts and what the fund pass spends
  // ---------------------------------------------------------------------------------------------

  datatype ResolvedFunding = ResolvedFunding(initial: nat, topup: nat, lowerThreshold: nat, face: nat)

  datatype FundingConfig = FundingConfig(initialCapacity: nat, topupCapacity: nat, lowerCapacity: nat, mode: SizingMode)

  function Resolve(cfg: FundingConfig, payload: nat, price: nat, winProb: Option<real>, hops: nat, snap: real)
    : ResolvedFunding
    requires payload > 0
  {
    ResolvedFunding(
      CapacityToBalance(cfg.initialCapacity, payload, price, winProb, hops, cfg.mode, snap),
      CapacityToBalance(cfg.topupCapacity, payload, price, winProb, hops, cfg.mode, snap),
      CapacityToBalance(cfg.lowerCapacity, payload, price, winProb, hops, cfg.mode, snap),
      WinningTicketFaceValue(price, winProb, hops))
  }

  /** The amount is the one resolved for this capacity. */
  ghost predicate IsFor(cfg: FundingConfig, f: ResolvedFunding, bytes: nat, amount: nat) {
    || (bytes == cfg.initialCapacity && amount == f.initial)
    || (bytes == cfg.topupCapacity && amount == f.topup)
    || (bytes == cfg.lowerCapacity && amount == f.lowerThreshold)
  }

  /** The opening stake, the top-up and the threshold each pay for the traffic of the capacity configured for them;
      one for which no capacity is configured is nothing. */
  lemma AmountsPayForTheirCapacity(cfg: FundingConfig, payload: nat, price: nat, winProb: Option<real>, hops: nat,
                                   snap: real, p: real, face: real, bytes: nat, amount: nat,
                                   n: nat, cost: real, worth: real)
    requires payload > 0 && snap >= 0.0 && 0 < price <= U128_MAX && hops > 0
    requires IsFor(cfg, Resolve(cfg, payload, price, winProb, hops, snap), bytes, amount)
    requires WinsWith(winProb, p) && PaysOnAverage(face, price, hops, p)
    requires bytes > 0 ==> JustCarries(n, bytes, payload) && CostsSoMuch(cost, n, price, hops, cfg.mode)
    requires worth == if cost >= face then cost else face
    requires Unsaturated(bytes, payload, price, winProb, hops, cfg.mode, snap)
    ensures bytes == 0 ==> amount == 0
    ensures bytes > 0 ==> amount as real < worth + face
    ensures bytes > 0 ==> exists t: nat ::
              && t >= 1 && amount == Resolve(cfg, payload, price, winProb, hops, snap).face * t
              && worth - snap * worth - t as real * hops as real < amount as real
  {
    if bytes > 0 {
      hide CapacityToBalance, WinningTicketFaceValue, WinsWith, PaysOnAverage, JustCarries, CostsSoMuch, Unsaturated,
        ClampedWinProb;
      StakePaysForTheTraffic(bytes, payload, price, winProb, hops, cfg.mode, snap, p, face, n, cost, worth);
    }
  }

  /** What the Safe must hold to meet the demand a tick can see. */
  function RequiredSafeBalance(f: ResolvedFunding, needingTopup: nat, openDeficit: nat): nat {
    SatAdd(SatMul(f.topup, needingTopup), SatMul(f.initial, openDeficit))
  }

  /** The whole top-up, or as many whole tickets of it as the Safe can pay. */
  function FundAmount(safe: nat, f: ResolvedFunding): (amount: nat)
    requires f.face > 0
    ensures amount <= safe && amount <= f.topup
  {
    if safe >= f.topup then f.topup else safe - safe % f.face
  }

  /** Either a whole number of face values, or pinned at the largest representable amount. */
  ghost predicate WholeOrSaturated(amount: nat, face: nat) {
    amount == U256_MAX || exists t: nat :: amount == t * face
  }

  lemma ResolvedAmountsAreWhole(cfg: FundingConfig, payload: nat, price: nat,
                                winProb: Option<real>, hops: nat, snap: real)
    requires payload > 0
    ensures var f := Resolve(cfg, payload, price, winProb, hops, snap);
            && WholeOrSaturated(f.initial, f.face)
            && WholeOrSaturated(f.topup, f.face)
            && WholeOrSaturated(f.lowerThreshold, f.face)
  {
    BalanceIsWhole(cfg.initialCapacity, payload, price, winProb, hops, cfg.mode, snap);
    BalanceIsWhole(cfg.topupCapacity, payload, price, winProb, hops, cfg.mode, snap);
    BalanceIsWhole(cfg.lowerCapacity, payload, price, winProb, hops, cfg.mode, snap);
  }

  lemma BalanceIsWhole(bytes: nat, payload: nat, price: nat, winProb: Option<real>,
                       hops: nat, mode: SizingMode, snap: real)
    requires payload > 0
    ensures WholeOrSaturated(CapacityToBalance(bytes, payload, price, winProb, hops, mode, snap),
                             WinningTicketFaceValue(price, winProb, hops))
  {
    var f := WinningTicketFaceValue(price, winProb, hops);
    if bytes == 0 || f == 0 {
      assert CapacityToBalance(bytes, payload, price, winProb, hops, mode, snap) == 0 * f;
    } else {
      var t := Min(TicketCount(bytes, payload, price, winProb, hops, mode, snap), U128_MAX);
      assert f * t == t * f;
    }
  }

  lemma NoLargerMultiple(t: nat, q: nat, face: nat, safe: nat)
    requires face > 0 && t * face <= safe < (q + 1) * face
    ensures t * face <= q * face
  {
    assert (q + 1 - t) * face > 0;
    assert q + 1 - t > 0;
    assert (q - t) * face >= 0;
  }

  /** A partial amount is a whole number of tickets and the largest such amount the Safe can pay; it is
      zero exactly when the Safe holds less than one ticket. */
  lemma FundAmountIsLargestWhole(safe: nat, f: ResolvedFunding)
    requires f.face > 0
    ensures safe < f.topup ==>
              && (exists t: nat :: FundAmount(safe, f) == t * f.face)
              && (forall t: nat :: t * f.face <= safe ==> t * f.face <= FundAmount(safe, f))
              && (FundAmount(safe, f) == 0 <==> safe < f.face)
  {
    LargestMultiple(safe, f.face);
  }

  lemma LargestMultiple(safe: nat, face: nat)
    requires face > 0
    ensures safe - safe % face == (safe / face) * face
    ensures forall t: nat :: t * face <= safe ==> t * face <= safe - safe % face
    ensures safe - safe % face == 0 <==> safe < face
  {
    var q := safe / face;
    assert safe == q * face + safe % face;
    forall t: nat | t * face <= safe ensures t * face <= q * face {
      NoLargerMultiple(t, q, face, safe);
    }
    if q >= 1 {
      ProductAtLeast(q, face);
    }
  }
}
