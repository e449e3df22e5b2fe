/** Share units against raw issuer units: the decoded multiplier is the binary64 value,
    conversions are exact rational arithmetic rounded once, reservations cover deliveries,
    and the two numeric listing checks make every later conversion safe. */
module Conversion {
  import opened Exact
  import opened Rules

  // ------------------------------------------------- meaning of the multiplier

  datatype Rational = Rational(num: nat, den: nat)

  predicate SameNumber(a: Rational, b: Rational) {
    a.num * b.den == b.num * a.den
  }

  const P52 := 0x10_0000_0000_0000

  /** Section 3.4 of IEEE 754-2008: positive normal binary64 bits with biased exponent e and
      52-bit trailing significand f denote (1 + f / 2^52) * 2^(e - 1023). */
  function Binary64(bits: u64): Rational {
    var e := bits / P52 % 0x800;
    var f := bits % P52;
    if e >= 1023 then Rational((P52 + f) * Pow2(e - 1023), P52)
    else Rational(P52 + f, P52 * Pow2(1023 - e))
  }

  lemma Pow2Of52(n: nat)
    requires n == 52
    ensures Pow2(n) == P52
  {
    var k := 4;
    Pow2Square(2, 4);
    Pow2Square(4, 16);
    Pow2Square(8, 0x100);
    Pow2Square(16, 0x1_0000);
    Pow2Add(32, 16);
    Pow2Add(48, k);
  }

  /** What MultiplierParts decodes is the number the bits denote. */
  lemma DecodingIsExact(bits: u64)
    requires MultiplierParts(bits).Ok?
    ensures var parts := MultiplierParts(bits).value;
            SameNumber(Rational(parts.mantissa, Pow2(parts.shift)), Binary64(bits))
    ensures Binary64(bits).num > 0 && Binary64(bits).den > 0
  {
    var parts := MultiplierParts(bits).value;
    var e, n := bits / P52 % 0x800, 52;
    Pow2Of52(n);
    if e >= 1023 {
      Pow2Add(e - 1023, parts.shift);
      assert e - 1023 + parts.shift == n;
      Regroup(parts.mantissa, Pow2(e - 1023), Pow2(parts.shift));
      MulBound(1, parts.mantissa, 1, Pow2(e - 1023));
    } else {
      Pow2Add(n, 1023 - e);
      assert n + (1023 - e) == parts.shift;
      MulBound(1, P52, 1, Pow2(1023 - e));
    }
  }

  lemma Regroup(a: int, b: int, c: int)
    ensures a * (b * c) == a * b * c == a * c * b
  {
  }

  /** raw is the greatest integer not above tokens / v. */
  predicate RoundsDown(raw: int, tokens: nat, v: Rational) {
    raw * v.num <= tokens * v.den < (raw + 1) * v.num
  }

  /** raw is the least integer not below tokens / v. */
  predicate RoundsUp(raw: int, tokens: nat, v: Rational) {
    (raw - 1) * v.num < tokens * v.den <= raw * v.num
  }

  /** The conversion is exact arithmetic on the number the bits denote, rounded once. */
  lemma RawIsExact(bits: u64, units: u64, scale: u64)
    requires MultiplierParts(bits).Ok?
    ensures RoundsDown(RawUnits(units, scale, MultiplierParts(bits).value, false), units * scale, Binary64(bits))
    ensures RoundsUp(RawUnits(units, scale, MultiplierParts(bits).value, true), units * scale, Binary64(bits))
  {
    DecodingIsExact(bits);
    RawUnitsExactly(units, scale, MultiplierParts(bits).value, Binary64(bits));
  }

  lemma RawUnitsExactly(units: nat, scale: nat, parts: Parts, v: Rational)
    requires parts.mantissa > 0 && v.num > 0 && v.den > 0
    requires SameNumber(Rational(parts.mantissa, Pow2(parts.shift)), v)
    ensures RoundsDown(RawUnits(units, scale, parts, false), units * scale, v)
    ensures RoundsUp(RawUnits(units, scale, parts, true), units * scale, v)
  {
    QuotientIsExact(units * scale, parts.mantissa, Pow2(parts.shift), v);
  }

  lemma QuotientIsExact(tokens: nat, m: nat, p: nat, v: Rational)
    requires m > 0 && p > 0 && v.num > 0 && v.den > 0 && m * v.den == v.num * p
    ensures RoundsDown(tokens * p / m, tokens, v) && RoundsUp(CeilDiv(tokens * p, m), tokens, v)
  {
    var down, up := tokens * p / m, CeilDiv(tokens * p, m);
    FloorBounds(tokens * p, m);
    CeilBounds(tokens * p, m);
    assert (down + 1) * m == down * m + m && (up - 1) * m == up * m - m;
    ChangeDenominator(down, tokens, m, p, v.num, v.den);
    ChangeDenominator(down + 1, tokens, m, p, v.num, v.den);
    ChangeDenominator(up - 1, tokens, m, p, v.num, v.den);
    ChangeDenominator(up, tokens, m, p, v.num, v.den);
  }

  lemma ChangeDenominator(bound: int, tokens: nat, m: nat, p: nat, num: nat, den: nat)
    requires p > 0 && den > 0 && m * den == num * p
    ensures bound * m < tokens * p <==> bound * num < tokens * den
    ensures bound * m == tokens * p <==> bound * num == tokens * den
  {
    Regroup(bound, m, den);
    Regroup(bound, num, p);
    Regroup(tokens, p, den);
    StrictScale(bound * m, tokens * p, den);
    StrictScale(bound * num, tokens * den, p);
  }

  lemma StrictScale(a: int, x: int, b: int)
    requires b > 0
    ensures a < x <==> a * b < x * b
    ensures a == x <==> a * b == x * b
  {
    assert (a + 1) * b == a * b + b && (x + 1) * b == x * b + b;
    if a < x {
      MulMono(a + 1, x, b);
    } else if a > x {
      MulMono(x + 1, a, b);
    }
  }

  /** The cross-multiplied comparison is the band of the two numbers the bits denote. */
  lemma BandIsExact(listing: u64, current: u64)
    requires MultiplierParts(listing).Ok? && MultiplierParts(current).Ok?
    ensures var l, c := Binary64(listing), Binary64(current);
            WithinBand(listing, current).value <==>
            && 4 * (c.num * l.den) <= 5 * (l.num * c.den)
            && 5 * (c.num * l.den) >= 4 * (l.num * c.den)
  {
    DecodingIsExact(listing);
    DecodingIsExact(current);
    var l, c := Binary64(listing), Binary64(current);
    var lp, cp := MultiplierParts(listing).value, MultiplierParts(current).value;
    CrossRatio(cp.mantissa, Pow2(cp.shift), lp.mantissa, Pow2(lp.shift), c, l);
  }

  lemma CrossRatio(cm: nat, pc: nat, lm: nat, pl: nat, c: Rational, l: Rational)
    requires pc > 0 && pl > 0 && c.den > 0 && l.den > 0
    requires cm * c.den == c.num * pc && lm * l.den == l.num * pl
    ensures 4 * (cm * pl) <= 5 * (lm * pc) <==> 4 * (c.num * l.den) <= 5 * (l.num * c.den)
    ensures 5 * (cm * pl) >= 4 * (lm * pc) <==> 5 * (c.num * l.den) >= 4 * (l.num * c.den)
  {
    var x, y, dens, pows := cm * pl, lm * pc, c.den * l.den, pc * pl;
    var u, w := c.num * l.den, l.num * c.den;
    assert x * dens == u * pows by {
      FourFactors(cm, pl, c.den, l.den);
      FourFactors(c.num, pc, l.den, pl);
    }
    assert y * dens == w * pows by {
      FourFactors(lm, pc, l.den, c.den);
      FourFactors(l.num, pl, c.den, pc);
    }
    MulBound(1, c.den, 1, l.den);
    MulBound(1, pc, 1, pl);
    ScaledComparison(4, x, 5, y, dens);
    ScaledComparison(4, u, 5, w, pows);
    ScaledComparison(4, y, 5, x, dens);
    ScaledComparison(4, w, 5, u, pows);
  }

  lemma FourFactors(a: int, b: int, c: int, d: int)
    ensures a * b * (c * d) == a * c * (b * d)
    ensures a * b * (c * d) == a * c * (d * b)
    ensures a * b * (d * c) == a * c * (b * d)
    ensures a * b * (c * d) == a * c * b * d
  {
    Regroup(a, b, c * d);
    Regroup(b, c, d);
    Regroup(a, c, b * d);
    Regroup(a * c, b, d);
  }

  lemma ScaledComparison(i: int, a: int, j: int, x: int, b: int)
    requires b > 0
    ensures i * a <= j * x <==> i * (a * b) <= j * (x * b)
  {
    Regroup(i, a, b);
    Regroup(j, x, b);
    StrictScale(i * a, j * x, b);
  }

  // --------------------------------------------- reservations cover deliveries

  /** The live multiplier is at least the one an ask was placed at. */
  ghost predicate AtLeast(live: Parts, placed: Parts) {
    live.mantissa * Pow2(placed.shift) >= placed.mantissa * Pow2(live.shift)
  }

  /** The raw reservation is worth the remaining share units at the multiplier. */
  ghost predicate Covers(reserved: int, remaining: int, scale: nat, parts: Parts) {
    reserved * parts.mantissa >= remaining * scale * Pow2(parts.shift)
  }

  lemma DownBelowUp(quantity: nat, scale: nat, parts: Parts)
    requires parts.mantissa > 0
    ensures RawUnits(quantity, scale, parts, false) <= RawUnits(quantity, scale, parts, true)
  {
    var numerator := quantity * scale * Pow2(parts.shift);
    FloorBelowCeil(numerator, parts.mantissa);
  }

  lemma RoundedUpCovers(quantity: nat, scale: nat, parts: Parts)
    requires parts.mantissa > 0
    ensures Covers(RawUnits(quantity, scale, parts, true), quantity, scale, parts)
  {
    CeilBounds(quantity * scale * Pow2(parts.shift), parts.mantissa);
  }

  lemma {:induction false} CrossScale(d: nat, m0: nat, m1: nat, p0: nat, p1: nat, x: nat)
    requires p1 > 0 && d * m1 <= x * p1 && m1 * p0 >= m0 * p1
    ensures d * m0 <= x * p0
  {
    MulMono(m0 * p1, m1 * p0, d);
    assert d * (m0 * p1) == d * m0 * p1 && d * (m1 * p0) == d * m1 * p0;
    MulMono(d * m1, x * p1, p0);
    assert x * p1 * p0 == x * p0 * p1;
    CancelFactor(d * m0, x * p0, p1);
  }

  /** A rounded-down delivery at a multiplier no lower than the reservation's own is within
      the reservation, and what is left still covers what remains. */
  lemma DeliveryKeepsCover(reserved: int, remaining: nat, quantity: nat, scale: nat, placed: Parts, live: Parts)
    requires placed.mantissa > 0 && live.mantissa > 0
    requires Covers(reserved, remaining, scale, placed) && quantity <= remaining && AtLeast(live, placed)
    ensures var delivered := RawUnits(quantity, scale, live, false);
            0 <= delivered <= reserved && Covers(reserved - delivered, remaining - quantity, scale, placed)
  {
    var p0, p1, m0, m1 := Pow2(placed.shift), Pow2(live.shift), placed.mantissa, live.mantissa;
    var d := RawUnits(quantity, scale, live, false);
    FloorBounds(quantity * scale * p1, m1);
    FloorGreatest(quantity * scale * p1, m1, 0);
    CrossScale(d, m0, m1, p0, p1, quantity * scale);
    StillWorth(reserved, d, remaining, quantity, scale, m0, p0);
  }

  lemma StillWorth(reserved: int, d: nat, remaining: nat, quantity: nat, scale: nat, m: nat, p: nat)
    requires m > 0 && quantity <= remaining && d * m <= quantity * scale * p && reserved * m >= remaining * scale * p
    ensures d <= reserved && (reserved - d) * m >= (remaining - quantity) * scale * p
  {
    var k := scale * p;
    assert remaining * scale * p == remaining * k && quantity * scale * p == quantity * k;
    assert (remaining - quantity) * scale * p == (remaining - quantity) * k == remaining * k - quantity * k;
    assert (reserved - d) * m == reserved * m - d * m;
    MulMono(quantity, remaining, k);
    CancelFactor(d, reserved, m);
  }

  datatype Delivery = Delivery(quantity: u64, multiplier: u64)

  ghost predicate DeliverableFrom(deliveries: seq<Delivery>, placed: Parts) {
    forall d | d in deliveries ::
      MultiplierParts(d.multiplier).Ok? && AtLeast(MultiplierParts(d.multiplier).value, placed)
  }

  ghost function Quantity(deliveries: seq<Delivery>): nat {
    if deliveries == [] then 0
    else Quantity(deliveries[..|deliveries| - 1]) + deliveries[|deliveries| - 1].quantity
  }

  ghost function Delivered(deliveries: seq<Delivery>, scale: nat, placed: Parts): int
    requires DeliverableFrom(deliveries, placed)
  {
    if deliveries == [] then 0
    else
      var last := deliveries[|deliveries| - 1];
      assert last in deliveries;
      Delivered(deliveries[..|deliveries| - 1], scale, placed)
      + RawUnits(last.quantity, scale, MultiplierParts(last.multiplier).value, false)
  }

  /** An ask's reservation, rounded up once at its placement, covers every sequence of
      rounded-down partial deliveries of at most its quantity, each at its own later
      multiplier; what a completed ask is refunded is the non-negative rest. */
  lemma {:induction false} ReservationCoversDeliveries(
      deliveries: seq<Delivery>, quantity: nat, scale: nat, placed: Parts)
    requires placed.mantissa > 0
    requires DeliverableFrom(deliveries, placed) && Quantity(deliveries) <= quantity
    ensures var reserved := RawUnits(quantity, scale, placed, true);
            && Delivered(deliveries, scale, placed) <= reserved
            && Covers(reserved - Delivered(deliveries, scale, placed), quantity - Quantity(deliveries), scale, placed)
  {
    var reserved := RawUnits(quantity, scale, placed, true);
    if deliveries == [] {
      RoundedUpCovers(quantity, scale, placed);
    } else {
      var last := deliveries[|deliveries| - 1];
      assert last in deliveries;
      var before := deliveries[..|deliveries| - 1];
      ReservationCoversDeliveries(before, quantity, scale, placed);
      DeliveryKeepsCover(reserved - Delivered(before, scale, placed), quantity - Quantity(before),
                         last.quantity, scale, placed, MultiplierParts(last.multiplier).value);
    }
  }

  // ------------------------------------------------------ the listing checks

  /** The two numeric checks a base leg passes when it is listed. */
  predicate ListingChecks(maxQuantity: u64, step: u64, scale: u64, multiplier: u64) {
    && BaseRaw(maxQuantity, scale, multiplier, true).Ok?
    && BaseRaw(maxQuantity, scale, multiplier, true).value * 5 <= U64_MAX
    && BaseRaw(step, scale, multiplier, false).Ok?
    && BaseRaw(step, scale, multiplier, false).value >= 2
  }

  /** Inside the band a conversion is at most 5/4, rounded up, of the listing's. */
  lemma ConvertsWithin(quantity: nat, maxQuantity: nat, scale: nat, listing: Parts, live: Parts)
    requires listing.mantissa > 0 && live.mantissa > 0 && InBand(listing, live) && quantity <= maxQuantity
    ensures quantity * scale <= maxQuantity * scale
    ensures RawUnits(quantity, scale, live, false) <= RawUnits(quantity, scale, live, true)
            <= 5 * RawUnits(maxQuantity, scale, listing, true)
  {
    var l, c, pl, pc := listing.mantissa, live.mantissa, Pow2(listing.shift), Pow2(live.shift);
    var tokens, most := quantity * scale, maxQuantity * scale;
    var r := RawUnits(maxQuantity, scale, listing, true);
    MulBound(quantity, maxQuantity, scale, scale);
    CeilBounds(most * pl, l);
    MulBound(tokens, most, pl, pl);
    CancelListing(tokens, pc, pl, l, c, r);
    CeilLeast(tokens * pc, c, 5 * r);
    FloorBelowCeil(tokens * pc, c);
  }

  /** At every multiplier inside the band of the listing value, every admissible quantity
      converts, in both directions of rounding, without overflow. */
  lemma InBandConverts(maxQuantity: u64, step: u64, scale: u64, listing: u64, live: u64, quantity: u64)
    requires ListingChecks(maxQuantity, step, scale, listing)
    requires WithinBand(listing, live) == Ok(true)
    requires quantity <= maxQuantity
    ensures BaseRaw(quantity, scale, live, true).Ok? && BaseRaw(quantity, scale, live, false).Ok?
    ensures BaseRaw(quantity, scale, live, false).value <= BaseRaw(quantity, scale, live, true).value
  {
    hide RawUnits, MultiplierParts, InBand, BaseRaw, WithinBand;
    ConvertsWithin(quantity, maxQuantity, scale, MultiplierParts(listing).value, MultiplierParts(live).value);
  }

  lemma CancelListing(tokens: nat, pc: nat, pl: nat, l: nat, c: nat, r: nat)
    requires l > 0 && 4 * (l * pc) <= 5 * (c * pl) && tokens * pl <= r * l
    ensures tokens * pc <= 5 * r * c
  {
    MulMono(4 * (l * pc), 5 * (c * pl), tokens);
    MulMono(tokens * pl, r * l, 5 * c);
    assert 4 * (l * pc) * tokens == 4 * (tokens * pc) * l;
    assert 5 * (c * pl) * tokens == tokens * pl * (5 * c);
    assert r * l * (5 * c) == 5 * r * c * l;
    assert 4 * (tokens * pc) * l <= 5 * r * c * l;
    CancelFactor(4 * (tokens * pc), 5 * r * c, l);
  }

  /** Inside the band whatever delivers two units at the listing value delivers one. */
  lemma DeliversWithin(step: nat, quantity: nat, scale: nat, listing: Parts, live: Parts)
    requires listing.mantissa > 0 && live.mantissa > 0 && InBand(listing, live) && step <= quantity
    requires RawUnits(step, scale, listing, false) >= 2
    ensures RawUnits(quantity, scale, live, false) >= 1
  {
    var l, c, pl, pc := listing.mantissa, live.mantissa, Pow2(listing.shift), Pow2(live.shift);
    var tokens := step * scale;
    FloorGreatest(tokens * pl, l, 2);
    StepDelivers(tokens, pc, pl, l, c);
    MulBound(step, quantity, scale, scale);
    MulBound(tokens, quantity * scale, pc, pc);
    FloorGreatest(quantity * scale * pc, c, 1);
  }

  /** One step, hence every positive multiple of it, still delivers a raw unit at the top of the band. */
  lemma InBandDelivers(maxQuantity: u64, step: u64, scale: u64, listing: u64, live: u64, quantity: u64)
    requires ListingChecks(maxQuantity, step, scale, listing)
    requires WithinBand(listing, live) == Ok(true)
    requires step <= quantity <= maxQuantity
    ensures BaseRaw(quantity, scale, live, false).Ok? && BaseRaw(quantity, scale, live, false).value >= 1
  {
    hide RawUnits, MultiplierParts, InBand, BaseRaw, WithinBand;
    InBandConverts(maxQuantity, step, scale, listing, live, quantity);
    DeliversWithin(step, quantity, scale, MultiplierParts(listing).value, MultiplierParts(live).value);
  }

  lemma StepDelivers(tokens: nat, pc: nat, pl: nat, l: nat, c: nat)
    requires l > 0 && 4 * (c * pl) <= 5 * (l * pc) && 2 * l <= tokens * pl
    ensures c <= tokens * pc
  {
    MulMono(4 * (c * pl), 5 * (l * pc), tokens);
    MulMono(2 * l, tokens * pl, 4 * c);
    assert 4 * (c * pl) * tokens == tokens * pl * (4 * c);
    assert 5 * (l * pc) * tokens == 5 * (tokens * pc) * l;
    assert 2 * l * (4 * c) == 8 * c * l;
    assert 8 * c * l <= 5 * (tokens * pc) * l;
    CancelFactor(8 * c, 5 * (tokens * pc), l);
  }
}
