/** The market maker's quotes: two-sided ladders around a fair price that never offer more than is
    held, budgeted or wanted, and never cross each other or the rest of the book. */
module Quoter {
  import opened Exact
  import opened Rules
  import opened Conversion
  import opened State
  import P = Planner

  const PROB := 1_000_000

  /** n * m / d, rounded down and up; the multiples of a step at or below and at or above. */
  function Per(n: nat, m: nat, d: nat): (r: nat)
    requires d > 0
  {
    Products(n, m);
    n * m / d
  }

  function PerUp(n: nat, m: nat, d: nat): (r: nat)
    requires d > 0
  {
    Products(n, m);
    CeilDiv(n * m, d)
  }

  function Whole(n: nat, step: nat): (r: nat)
    requires step > 0
    ensures r % step == 0 && r <= n
  {
    FloorBounds(n, step);
    Products(n / step, step);
    MultipleOf(n / step * step, n / step, step);
    n / step * step
  }

  function WholeUp(n: nat, step: nat): (r: nat)
    requires step > 0
    ensures r % step == 0 && r >= n
  {
    CeilBounds(n, step);
    Products(CeilDiv(n, step), step);
    MultipleOf(CeilDiv(n, step) * step, CeilDiv(n, step), step);
    CeilDiv(n, step) * step
  }

  lemma Products(n: nat, m: nat)
    ensures n * m >= 0
  {
  }

  lemma PerGrows(n: nat, m: nat, k: nat, d: nat)
    requires d > 0 && m <= k
    ensures Per(n, m, d) <= Per(n, k, d) && PerUp(n, m, d) <= PerUp(n, k, d)
  {
    MulMono(m, k, n);
    Products(n, m);
    FloorMono(n * m, n * k, d);
    CeilMono(n * m, n * k, d);
  }

  /** A part of no more than the whole is no more than it. */
  lemma PerAtMost(n: nat, m: nat, d: nat)
    requires d > 0 && m <= d
    ensures Per(n, m, d) <= n
  {
    PerGrows(n, m, d, d);
    FloorOfMultiple(n, d);
  }

  lemma WholeGrows(n: nat, m: nat, step: nat)
    requires step > 0 && n <= m
    ensures Whole(n, step) <= Whole(m, step) && WholeUp(n, step) <= WholeUp(m, step)
  {
    FloorMono(n, m, step);
    MulMono(n / step, m / step, step);
    CeilMono(n, m, step);
    MulMono(CeilDiv(n, step), CeilDiv(m, step), step);
  }

  function Lower(a: int, b: int): int {
    if a < b then a else b
  }

  function Higher(a: int, b: int): int {
    if a > b then a else b
  }

  // ----------------------------------------------------------------- share units

  /** Share units that raw issuer units fully back at a live multiplier. */
  function ShareUnits(raw: nat, scale: nat, parts: Parts): nat
    requires scale > 0 && parts.mantissa > 0
  {
    PositiveScale(scale, parts.shift);
    Per(raw, parts.mantissa, scale * Pow2(parts.shift))
  }

  lemma PositiveScale(scale: nat, shift: nat)
    requires scale > 0
    ensures scale * Pow2(shift) > 0
  {
    Pow2Mono(0, shift);
    MulMono(1, scale, Pow2(shift));
  }

  /** Backed exactly when the reservation, rounded up, is within what is held: the two conversions are
      inverse to one another. */
  lemma BackedIffReserved(units: nat, raw: nat, scale: nat, parts: Parts)
    requires scale > 0 && parts.mantissa > 0
    ensures units <= ShareUnits(raw, scale, parts) <==> RawUnits(units, scale, parts, true) <= raw
  {
    PositiveScale(scale, parts.shift);
    var numerator := units * scale * Pow2(parts.shift);
    assert numerator == units * (scale * Pow2(parts.shift));
    CeilLeast(numerator, parts.mantissa, raw);
    FloorGreatest(raw * parts.mantissa, scale * Pow2(parts.shift), units);
  }

  // ---------------------------------------------------------------------- prices

  /** Bids round down to the tick below the fair price, asks up to the tick above it. */
  function PriceAt(side: nat, center: nat, edge: nat, tick: nat): (p: nat)
    requires edge <= BPS && tick > 0
    ensures p % tick == 0
  {
    if side == 0 then Whole(Per(center, BPS - edge, BPS), tick) else WholeUp(PerUp(center, BPS + edge, BPS), tick)
  }

  /** The best tick the edge allows: no whole tick that is an edge below the fair price is above the bid,
      and none that is an edge above it is below the ask. */
  lemma PriceIsBest(center: nat, edge: nat, tick: nat, price: nat)
    requires edge <= BPS && tick > 0 && price % tick == 0
    ensures price <= PriceAt(0, center, edge, tick) <==> price * BPS <= center * (BPS - edge)
    ensures price >= PriceAt(1, center, edge, tick) <==> price * BPS >= center * (BPS + edge)
  {
    Products(center, BPS - edge);
    Products(center, BPS + edge);
    FloorGreatest(center * (BPS - edge), BPS, price);
    CeilLeast(center * (BPS + edge), BPS, price);
    TickBelow(Per(center, BPS - edge, BPS), price, tick);
    TickAbove(PerUp(center, BPS + edge, BPS), price, tick);
  }

  lemma TickBelow(n: nat, price: nat, tick: nat)
    requires tick > 0 && price % tick == 0
    ensures price <= Whole(n, tick) <==> price <= n
  {
    if price <= n {
      WholeGrows(price, n, tick);
      assert price == price / tick * tick;
    }
  }

  lemma TickAbove(n: nat, price: nat, tick: nat)
    requires tick > 0 && price % tick == 0
    ensures price >= WholeUp(n, tick) <==> price >= n
  {
    if price >= n {
      WholeGrows(n, price, tick);
      assert price == price / tick * tick;
      FloorBelowCeil(price, tick);
    }
  }

  /** A wider edge never quotes better. */
  lemma PricesWiden(side: nat, center: nat, edge: nat, wider: nat, tick: nat)
    requires edge <= wider <= BPS && tick > 0
    ensures side == 0 ==> PriceAt(side, center, wider, tick) <= PriceAt(side, center, edge, tick)
    ensures side != 0 ==> PriceAt(side, center, wider, tick) >= PriceAt(side, center, edge, tick)
  {
    hide Per, PerUp, Whole, WholeUp;
    PerGrows(center, BPS - wider, BPS - edge, BPS);
    PerGrows(center, BPS + edge, BPS + wider, BPS);
    WholeGrows(Per(center, BPS - wider, BPS), Per(center, BPS - edge, BPS), tick);
    WholeGrows(PerUp(center, BPS + edge, BPS), PerUp(center, BPS + wider, BPS), tick);
  }

  /** With any edge at all, bids are below the fair price and asks above it. */
  lemma PricesStraddle(center: nat, edge: nat, tick: nat)
    requires 0 < edge <= BPS && tick > 0 && center > 0
    ensures PriceAt(0, center, edge, tick) < center < PriceAt(1, center, edge, tick)
  {
    hide Whole, WholeUp;
    var a, b := center * (BPS - edge), center * (BPS + edge);
    MulMono(1, edge, center);
    assert a == center * BPS - center * edge && b == center * BPS + center * edge;
    Products(center, BPS - edge);
    FloorBounds(a, BPS);
    CeilBounds(b, BPS);
    CancelStrict(Per(center, BPS - edge, BPS), center, BPS);
    CancelStrict(center, PerUp(center, BPS + edge, BPS), BPS);
  }

  // --------------------------------------------------------------------- ladders

  datatype Quote = Quote(branch: nat, side: nat, level: nat, price: nat, quantity: nat, bases: set<nat>)

  /** The market's limits and the maker's settings, for one round of quotes. */
  datatype Limits = Limits(tick: u64, step: u64, maxOrder: u64, maxQuantity: u64, minNotional: u64,
                           levels: nat, spacing: nat, half: nat, maxHalf: nat) {
    predicate Valid() {
      tick > 0 && step > 0 && spacing >= 1 && half >= 1 && maxHalf <= BPS
    }
  }

  /** One side of one branch, or of one leg of it: what is held, wanted and budgeted, around a fair
      price, behind the foreign prices it must not reach. */
  datatype Ladder = Ladder(branch: nat, side: nat, bases: set<nat>, center: nat, room: nat, funds: nat, budget: nat,
                           skew: nat,
                           foreign: seq<int>, convert: Rules.Option<P.LegState>) {
    predicate Valid() {
      && center > 0 && skew <= BPS && funds <= U64_MAX && (side == 0 <==> convert.None?)
      && (convert.Some? ==> convert.value.scale > 0 && MultiplierParts(convert.value.multiplier).Ok?)
    }

    predicate Crosses(price: int) {
      exists f | f in foreign :: if side == 0 then price >= f else price <= f
    }

    function Parts(): Parts
      requires convert.Some? && MultiplierParts(convert.value.multiplier).Ok?
      ensures Parts().mantissa > 0
    {
      MultiplierParts(convert.value.multiplier).value
    }

    /** What an order of this ladder reserves: its notional, or its raw units, rounded up. */
    function Reserves(q: Quote): nat
      requires Valid()
    {
      if convert.None? then Ceil(q.quantity, q.price) else RawUnits(q.quantity, convert.value.scale, Parts(), true)
    }
  }

  function Shares(qs: seq<Quote>): nat {
    if qs == [] then 0 else Shares(qs[..|qs| - 1]) + qs[|qs| - 1].quantity
  }

  function Notional(qs: seq<Quote>): nat {
    if qs == [] then 0 else Notional(qs[..|qs| - 1]) + Ceil(qs[|qs| - 1].quantity, qs[|qs| - 1].price)
  }

  function Reserved(o: Ladder, qs: seq<Quote>): nat
    requires o.Valid()
  {
    if qs == [] then 0 else Reserved(o, qs[..|qs| - 1]) + o.Reserves(qs[|qs| - 1])
  }

  /** One rung: a whole order within the market's limits, on its own side of the fair price. */
  predicate RungOk(l: Limits, o: Ladder, q: Quote)
    requires l.Valid() && o.Valid()
  {
    && q.branch == o.branch && q.side == o.side && q.bases == o.bases
    && 0 < q.quantity <= l.maxQuantity && q.quantity % l.step == 0
    && 0 < q.price <= U128_MAX && q.price % l.tick == 0 && !o.Crosses(q.price)
    && l.minNotional <= Floor(q.quantity, q.price) && Ceil(q.quantity, q.price) <= l.maxOrder
    && (if o.side == 0 then q.price < o.center else q.price > o.center)
  }

  predicate Monotone(side: nat, qs: seq<Quote>) {
    forall i, j | 0 <= i < j < |qs| :: if side == 0 then qs[j].price < qs[i].price else qs[j].price > qs[i].price
  }

  /** A ladder of whole rungs, each priced strictly outside the one before it, that together stay
      within what is wanted, held and budgeted. */
  predicate LadderOk(l: Limits, o: Ladder, qs: seq<Quote>)
    requires l.Valid() && o.Valid()
  {
    && (forall q | q in qs :: RungOk(l, o, q)) && Monotone(o.side, qs)
    && Shares(qs) <= o.room && Notional(qs) <= o.budget && Reserved(o, qs) <= o.funds
  }

  // ---------------------------------------------------------------- sizing a rung

  /** What is left of the weights from one level on: an arithmetic series. */
  function WeightLeft(weight: nat, levelsLeft: nat): (w: nat)
  {
    Products(levelsLeft, 2 * weight + levelsLeft);
    if levelsLeft == 0 then 0 else levelsLeft * (2 * weight + levelsLeft - 1) / 2
  }

  /** Outer levels weigh slightly more; a level's part of what is left is never more than that. */
  lemma PartOfBudget(budget: nat, weight: nat, levelsLeft: nat)
    requires weight > 0 && levelsLeft > 0
    ensures WeightLeft(weight, levelsLeft) >= weight && Per(budget, weight, WeightLeft(weight, levelsLeft)) <= budget
  {
    MulMono(1, levelsLeft, 2 * weight + levelsLeft - 1);
    PerAtMost(budget, weight, WeightLeft(weight, levelsLeft));
  }

  /** What one rung offers, before it is checked. */
  function Amount(l: Limits, o: Ladder, price: nat, room: nat, funds: nat, budget: nat): (a: nat)
    requires l.Valid() && o.Valid() && price > 0
    ensures a % l.step == 0
  {
    var wanted := Lower(Lower(Per(budget, WAD, price), Per(l.maxOrder, WAD, price)), Lower(l.maxQuantity, room));
    var skewed := Per(wanted, o.skew, BPS);
    Whole(if o.side == 0 then Lower(skewed, Per(funds, WAD, price)) else skewed, l.step)
  }

  /** It is within every limit but the smallest: what is wanted and held, and, rounded up, its share of
      the budget, the market's largest order and the maker's cash. */
  lemma AmountFits(l: Limits, o: Ladder, price: nat, room: nat, funds: nat, budget: nat)
    requires l.Valid() && o.Valid() && price > 0
    ensures var a := Amount(l, o, price, room, funds, budget);
            && a <= room && a <= l.maxQuantity
            && Ceil(a, price) <= budget && Ceil(a, price) <= l.maxOrder && (o.side == 0 ==> Ceil(a, price) <= funds)
  {
    hide Per, Whole, Ceil;
    var wanted := Lower(Lower(Per(budget, WAD, price), Per(l.maxOrder, WAD, price)), Lower(l.maxQuantity, room));
    PerAtMost(wanted, o.skew, BPS);
    var a := Amount(l, o, price, room, funds, budget);
    Worth(a, price, budget);
    Worth(a, price, l.maxOrder);
    Worth(a, price, funds);
  }

  /** And it is the most there can be: whole steps within the room, the market's sizes and the share of
      the budget, leaned on by the skew, and within a buyer's cash, are no more than it. */
  lemma AmountIsMost(l: Limits, o: Ladder, price: nat, room: nat, funds: nat, budget: nat, wanted: nat, x: nat)
    requires l.Valid() && o.Valid() && price > 0 && x % l.step == 0
    requires wanted <= room && wanted <= l.maxQuantity && wanted * price <= budget * WAD
             && wanted * price <= l.maxOrder * WAD
    requires x * BPS <= wanted * o.skew && (o.side == 0 ==> x * price <= funds * WAD)
    ensures x <= Amount(l, o, price, room, funds, budget)
  {
    hide Ladder.Valid;
    var most := Lower(Lower(Per(budget, WAD, price), Per(l.maxOrder, WAD, price)), Lower(l.maxQuantity, room));
    Products(budget, WAD);
    Products(l.maxOrder, WAD);
    Products(funds, WAD);
    FloorGreatest(budget * WAD, price, wanted);
    FloorGreatest(l.maxOrder * WAD, price, wanted);
    Products(wanted, o.skew);
    Products(most, o.skew);
    MulMono(wanted, most, o.skew);
    FloorGreatest(most * o.skew, BPS, x);
    FloorGreatest(funds * WAD, price, x);
    var skewed := Per(most, o.skew, BPS);
    var all := if o.side == 0 then Lower(skewed, Per(funds, WAD, price)) else skewed;
    MultipleFits(x, all, l.step);
  }

  lemma MultipleFits(x: nat, n: nat, step: nat)
    requires step > 0 && x % step == 0 && x <= n
    ensures x <= Whole(n, step)
  {
    WholeGrows(x, n, step);
    assert x == x / step * step;
  }

  /** The weights left from a level on are its own and those left from the next on; the last level may
      spend all that is left. */
  lemma WeightsAddUp(weight: nat, levelsLeft: nat)
    requires levelsLeft > 0
    ensures WeightLeft(weight, levelsLeft) == weight + WeightLeft(weight + 1, levelsLeft - 1)
    ensures WeightLeft(weight, 1) == weight
  {
    var n := levelsLeft - 1;
    assert levelsLeft * (2 * weight + levelsLeft - 1) == 2 * weight + n * (2 * (weight + 1) + n - 1);
    Products(n, 2 * (weight + 1) + n);
  }

  /** No more shares than an amount buys cost no more than it. */
  lemma Worth(a: nat, price: nat, amount: nat)
    requires price > 0
    ensures a <= Per(amount, WAD, price) ==> Ceil(a, price) <= amount
  {
    Products(a, price);
    FloorGreatest(amount * WAD, price, a);
    CeilLeast(a * price, WAD, amount);
  }

  lemma OneMoreRung(o: Ladder, qs: seq<Quote>, q: Quote)
    requires o.Valid()
    ensures Shares(qs + [q]) == Shares(qs) + q.quantity
            && Notional(qs + [q]) == Notional(qs) + Ceil(q.quantity, q.price)
    ensures Reserved(o, qs + [q]) == Reserved(o, qs) + o.Reserves(q)
  {
    assert (qs + [q])[..|qs|] == qs;
  }

  lemma NextOutside(l: Limits, o: Ladder, qs: seq<Quote>, q: Quote, previous: Rules.Option<nat>)
    requires l.Valid() && o.Valid() && LadderOk(l, o, qs) && RungOk(l, o, q)
    requires forall p | p in qs :: if o.side == 0 then q.price <= p.price else q.price >= p.price
    requires previous == (if qs == [] then None else Some(qs[|qs| - 1].price)) && previous != Some(q.price)
    requires Shares(qs) + q.quantity <= o.room && Notional(qs) + Ceil(q.quantity, q.price) <= o.budget
    requires Reserved(o, qs) + o.Reserves(q) <= o.funds
    ensures LadderOk(l, o, qs + [q])
  {
    hide RungOk, Ceil, Ladder.Reserves, Ladder.Valid, Limits.Valid;
    OneMoreRung(o, qs, q);
    forall i | 0 <= i < |qs|
      ensures if o.side == 0 then q.price < qs[i].price else q.price > qs[i].price
    {
      assert qs[i] in qs && qs[|qs| - 1] in qs;
    }
  }

  function EdgeOf(l: Limits, level: nat): nat {
    Products(l.spacing, level);
    l.half + l.spacing * level
  }

  /** A rung is priced at its level's edge. */
  predicate PricedAt(l: Limits, o: Ladder, q: Quote)
    requires l.Valid()
  {
    EdgeOf(l, q.level) <= l.maxHalf && q.price == PriceAt(o.side, o.center, EdgeOf(l, q.level), l.tick)
  }

  /** A level's price is not inside those of the levels before it, and on its side of the fair price. */
  lemma LevelPrice(l: Limits, o: Ladder, qs: seq<Quote>, level: nat)
    requires l.Valid() && o.Valid() && EdgeOf(l, level) <= l.maxHalf && (o.side == 0 || o.side == 1)
    requires forall q | q in qs :: q.level < level && PricedAt(l, o, q)
    ensures var price := PriceAt(o.side, o.center, EdgeOf(l, level), l.tick);
            && (forall q | q in qs :: if o.side == 0 then price <= q.price else price >= q.price)
            && (if o.side == 0 then price < o.center else price > o.center)
  {
    hide PriceAt, Ladder.Crosses;
    PricesStraddle(o.center, EdgeOf(l, level), l.tick);
    forall q | q in qs
      ensures var price := PriceAt(o.side, o.center, EdgeOf(l, level), l.tick); if o.side == 0 then price <= q.price
              else price >= q.price
    {
      MulMono(q.level, level, l.spacing);
      PricesWiden(o.side, o.center, EdgeOf(l, q.level), EdgeOf(l, level), l.tick);
    }
  }

  /** The room of a rung: what is still wanted, and for asks what the unreserved claims back. */
  function RoomLeft(o: Ladder, room: nat, funds: nat): nat
    requires o.Valid()
  {
    if o.convert.None? then room else Lower(room, ShareUnits(funds, o.convert.value.scale, o.Parts()))
  }

  /** A rung sized within its room reserves no more than the funds that are left. */
  lemma RungIsFunded(l: Limits, o: Ladder, level: nat, price: nat, room: nat, funds: nat, budget: nat)
    requires l.Valid() && o.Valid() && price > 0
    ensures var a := Amount(l, o, price, RoomLeft(o, room, funds), funds, budget);
            && a <= room && o.Reserves(Quote(o.branch, o.side, level, price, a, o.bases)) <= funds
            && Ceil(a, price) <= budget && Ceil(a, price) <= l.maxOrder && a <= l.maxQuantity
  {
    hide Amount, Ceil, RawUnits, ShareUnits;
    var a := Amount(l, o, price, RoomLeft(o, room, funds), funds, budget);
    AmountFits(l, o, price, RoomLeft(o, room, funds), funds, budget);
    if o.convert.Some? {
      BackedIffReserved(a, funds, o.convert.value.scale, o.Parts());
    }
  }

  // ---------------------------------------------------- which rungs a ladder has

  function Unused(whole: nat, used: nat): nat {
    if used < whole then whole - used else 0
  }

  /** A level's share of the budget that the rungs before it leave. */
  function BudgetAt(l: Limits, o: Ladder, qs: seq<Quote>, level: nat): nat
    requires l.Valid() && o.Valid() && level < l.levels
  {
    var weight := 2 * l.levels + 5 + level;
    PartOfBudget(0, weight, l.levels - level);
    Per(Unused(o.budget, Notional(qs)), weight, WeightLeft(weight, l.levels - level))
  }

  function PriceOf(l: Limits, o: Ladder, level: nat): nat
    requires l.Valid() && EdgeOf(l, level) <= l.maxHalf
  {
    PriceAt(o.side, o.center, EdgeOf(l, level), l.tick)
  }

  /** The most a level may offer of what the rungs before it leave wanted, held and budgeted. */
  function AmountAt(l: Limits, o: Ladder, qs: seq<Quote>, level: nat): nat
    requires l.Valid() && o.Valid() && level < l.levels && EdgeOf(l, level) <= l.maxHalf && PriceOf(l, o, level) > 0
  {
    var funds := Unused(o.funds, Reserved(o, qs));
    Amount(l, o, PriceOf(l, o, level), RoomLeft(o, Unused(o.room, Shares(qs)), funds), funds, BudgetAt(l, o, qs, level))
  }

  /** A level is quoted exactly when its edge is allowed, its price is a price, crosses nobody and is not
      the last one again, and what it may offer is something worth the market's minimum. */
  predicate Offers(l: Limits, o: Ladder, qs: seq<Quote>, level: nat)
    requires l.Valid() && o.Valid() && level < l.levels
  {
    && EdgeOf(l, level) <= l.maxHalf
    && var price := PriceOf(l, o, level);
    && 0 < price <= U128_MAX && !o.Crosses(price) && (qs == [] || qs[|qs| - 1].price != price)
    && AmountAt(l, o, qs, level) > 0 && l.minNotional <= Floor(AmountAt(l, o, qs, level), price)
  }

  /** The ladder of the first n levels: each that can be quoted, at all that it may offer. */
  function LadderTo(l: Limits, o: Ladder, n: nat): seq<Quote>
    requires l.Valid() && o.Valid() && n <= l.levels
  {
    if n == 0 then [] else
    var qs := LadderTo(l, o, n - 1);
    if Offers(l, o, qs, n - 1)
    then qs + [Quote(o.branch, o.side, n - 1, PriceOf(l, o, n - 1), AmountAt(l, o, qs, n - 1), o.bases)]
    else qs
  }

  /** Every rung of a ladder is one of its levels, at least that level's edge away from the fair price. */
  lemma {:induction false} RungsKeepTheSpread(l: Limits, o: Ladder, n: nat, q: Quote)
    requires l.Valid() && o.Valid() && n <= l.levels && q in LadderTo(l, o, n)
    ensures q.level < n && l.half + l.spacing * q.level <= l.maxHalf
    ensures o.side == 0 ==> q.price * BPS <= o.center * (BPS - (l.half + l.spacing * q.level))
    ensures o.side != 0 ==> q.price * BPS >= o.center * (BPS + (l.half + l.spacing * q.level))
  {
    hide PriceAt, AmountAt, Ladder.Valid, Ladder.Crosses;
    if q in LadderTo(l, o, n - 1) {
      RungsKeepTheSpread(l, o, n - 1, q);
    } else {
      PriceKeepsEdge(o.side, o.center, EdgeOf(l, n - 1), l.tick);
    }
  }

  lemma PriceKeepsEdge(side: nat, center: nat, edge: nat, tick: nat)
    requires edge <= BPS && tick > 0
    ensures side == 0 ==> PriceAt(side, center, edge, tick) * BPS <= center * (BPS - edge)
    ensures side != 0 ==> PriceAt(side, center, edge, tick) * BPS >= center * (BPS + edge)
  {
    PriceIsBest(center, edge, tick, PriceAt(side, center, edge, tick));
  }

  lemma EdgeGrows(l: Limits, level: nat, n: nat)
    requires level <= n
    ensures EdgeOf(l, level) <= EdgeOf(l, n)
  {
    MulMono(level, n, l.spacing);
  }

  /** Beyond the widest edge allowed there are no rungs. */
  lemma {:induction false} NoneBeyond(l: Limits, o: Ladder, level: nat, n: nat)
    requires l.Valid() && o.Valid() && level <= n <= l.levels && EdgeOf(l, level) > l.maxHalf
    ensures LadderTo(l, o, n) == LadderTo(l, o, level)
  {
    hide AmountAt, PriceOf, Ladder.Valid, Ladder.Crosses, EdgeOf;
    if level < n {
      NoneBeyond(l, o, level, n - 1);
      EdgeGrows(l, level, n - 1);
    }
  }

  lemma {:induction false} LadderGrows(l: Limits, o: Ladder, m: nat, n: nat)
    requires l.Valid() && o.Valid() && m <= n <= l.levels
    ensures LadderTo(l, o, m) <= LadderTo(l, o, n)
  {
    hide Offers, AmountAt, PriceOf;
    if m < n {
      LadderGrows(l, o, m, n - 1);
    }
  }

  /** Every rung converts: what it delivers, in the issuer's own decimals, fits 64 bits. */
  predicate Converts(o: Ladder, qs: seq<Quote>) {
    o.convert.Some? ==> forall q | q in qs :: q.quantity * o.convert.value.scale <= U64_MAX
  }

  lemma FewerConvert(o: Ladder, qs: seq<Quote>, more: seq<Quote>)
    requires qs <= more && Converts(o, more)
    ensures Converts(o, qs)
  {
    if o.convert.Some? {
      forall q | q in qs
        ensures q.quantity * o.convert.value.scale <= U64_MAX
      {
        assert q in more;
      }
    }
  }

  lemma OneMoreConverts(o: Ladder, qs: seq<Quote>, q: Quote)
    ensures Converts(o, qs + [q])
            <==> Converts(o, qs) && (o.convert.Some? ==> q.quantity * o.convert.value.scale <= U64_MAX)
  {
    assert q in qs + [q];
    assert forall k | k in qs :: k in qs + [q];
  }

  /** A rung that does not convert refuses the whole ladder. */
  lemma RefusedRung(l: Limits, o: Ladder, level: nat, q: Quote)
    requires l.Valid() && o.Valid() && level < l.levels && LadderTo(l, o, level + 1) == LadderTo(l, o, level) + [q]
    requires o.convert.Some? && q.quantity * o.convert.value.scale > U64_MAX
    ensures !Converts(o, LadderTo(l, o, l.levels))
  {
    hide LadderTo, Ladder.Valid, Limits.Valid;
    LadderGrows(l, o, level + 1, l.levels);
    OneMoreConverts(o, LadderTo(l, o, level), q);
    if Converts(o, LadderTo(l, o, l.levels)) { FewerConvert(o, LadderTo(l, o, level + 1), LadderTo(l, o, l.levels)); }
  }

  /** Quotes one ladder from the inside out: every level that can be quoted, at all it may offer. Nothing
      but an issuer conversion that leaves 64 bits can fail, and that only beyond the quantities the
      market admits. */
  method QuoteLadder(l: Limits, o: Ladder) returns (r: Rules.Result<seq<Quote>>)
    requires l.Valid() && o.Valid() && (o.side == 0 || o.side == 1)
    ensures r.Ok? <==> Converts(o, LadderTo(l, o, l.levels))
    ensures r.Ok? ==> r.value == LadderTo(l, o, l.levels) && LadderOk(l, o, r.value)
    ensures o.convert.None? || l.maxQuantity * o.convert.value.scale <= U64_MAX ==> r.Ok?
  {
    hide PriceAt, Amount, RoomLeft, Ceil, Floor, Ladder.Reserves, RungOk, Monotone, Shares, Notional, Reserved, BaseRaw,
      Per, EdgeOf, WeightLeft, Converts;
    var qs: seq<Quote> := [];
    var remainingRoom: int, remainingFunds: int, remainingBudget: int := o.room, o.funds, o.budget;
    var previous: Rules.Option<nat> := None;
    EmptyLadder(l, o);
    for level := 0 to l.levels
      invariant qs == LadderTo(l, o, level) && Converts(o, qs)
      invariant LadderOk(l, o, qs) && forall q | q in qs :: q.level < level && PricedAt(l, o, q)
      invariant remainingRoom == o.room - Shares(qs) && remainingBudget == o.budget - Notional(qs)
      invariant remainingFunds == o.funds - Reserved(o, qs)
      invariant previous == if qs == [] then None else Some(qs[|qs| - 1].price)
    {
      var edge := EdgeOf(l, level);
      if edge > l.maxHalf {
        NoneBeyond(l, o, level, l.levels);
        break;
      }
      var price := PriceAt(o.side, o.center, edge, l.tick);
      var weight := 2 * l.levels + 5 + level;
      PartOfBudget(remainingBudget, weight, l.levels - level);
      var budget := Per(remainingBudget, weight, WeightLeft(weight, l.levels - level));
      if price <= 0 || price > U128_MAX { continue; }
      if previous == Some(price) { continue; }
      if o.Crosses(price) { continue; }
      LevelPrice(l, o, qs, level);
      var amount := Amount(l, o, price, RoomLeft(o, remainingRoom, remainingFunds), remainingFunds, budget);
      assert amount == AmountAt(l, o, qs, level);
      RungIsFunded(l, o, level, price, remainingRoom, remainingFunds, budget);
      FloorBelow(amount, price);
      if amount <= 0 || amount > U64_MAX { continue; }
      var paid, cost := QuoteDown(amount, price), QuoteUp(amount, price);
      assert paid.Ok? && cost.Ok?;
      if paid.value < l.minNotional || cost.value > l.maxOrder || cost.value > budget { continue; }
      var q := Quote(o.branch, o.side, level, price, amount, o.bases);
      assert LadderTo(l, o, level + 1) == qs + [q];
      var reserved := cost;
      if o.convert.Some? {
        reserved := BaseRaw(amount, o.convert.value.scale, o.convert.value.multiplier, true);
        ConversionFails(o, amount, level, price, l.maxQuantity);
        if reserved.Err? {
          RefusedRung(l, o, level, q);
          return Err(reserved.error);
        }
      }
      OneMoreConverts(o, qs, q);
      ReservedIs(o, q);
      assert reserved.value <= remainingFunds;
      assert RungOk(l, o, q) by { RungFits(l, o, q); }
      NextOutside(l, o, qs, q, previous);
      OneMoreRung(o, qs, q);
      qs := qs + [q];
      previous := Some(price);
      remainingRoom := remainingRoom - amount;
      remainingBudget := remainingBudget - cost.value;
      remainingFunds := remainingFunds - reserved.value;
    }
    r := Ok(qs);
  }

  lemma EmptyLadder(l: Limits, o: Ladder)
    requires l.Valid() && o.Valid()
    ensures LadderOk(l, o, []) && Shares([]) == 0 && Notional([]) == 0 && Reserved(o, []) == 0 && Converts(o, [])
  {
  }

  lemma FloorBelow(amount: nat, price: nat)
    ensures Floor(amount, price) <= Ceil(amount, price)
  {
    Products(amount, price);
    FloorBelowCeil(amount * price, WAD);
  }

  lemma ConversionFails(o: Ladder, amount: u64, level: nat, price: nat, maxQuantity: u64)
    requires o.Valid() && o.convert.Some? && amount <= maxQuantity
    requires o.Reserves(Quote(o.branch, o.side, level, price, amount, o.bases)) <= U64_MAX
    ensures BaseRaw(amount, o.convert.value.scale, o.convert.value.multiplier, true).Ok?
            <==> amount * o.convert.value.scale <= U64_MAX
    ensures maxQuantity * o.convert.value.scale <= U64_MAX ==> amount * o.convert.value.scale <= U64_MAX
  {
    hide RawUnits;
    MulMono(amount, maxQuantity, o.convert.value.scale);
  }

  lemma ReservedIs(o: Ladder, q: Quote)
    requires o.Valid() && q.quantity <= U64_MAX && q.price <= U128_MAX
    ensures o.convert.None? ==> o.Reserves(q) == Ceil(q.quantity, q.price)
    ensures o.convert.Some? && BaseRaw(q.quantity, o.convert.value.scale, o.convert.value.multiplier, true).Ok?
            ==> BaseRaw(q.quantity, o.convert.value.scale, o.convert.value.multiplier, true).value == o.Reserves(q)
  {
    hide RawUnits, Ceil;
  }

  lemma RungFits(l: Limits, o: Ladder, q: Quote)
    requires l.Valid() && o.Valid() && q.branch == o.branch && q.side == o.side && q.bases == o.bases
    requires 0 < q.quantity <= l.maxQuantity && q.quantity % l.step == 0 && 0 < q.price <= U128_MAX
             && q.price % l.tick == 0
    requires !o.Crosses(q.price) && l.minNotional <= Floor(q.quantity, q.price)
             && Ceil(q.quantity, q.price) <= l.maxOrder
    requires if o.side == 0 then q.price < o.center else q.price > o.center
    ensures RungOk(l, o, q)
  {
  }
}
