/** One round of quotes over both branches: the fair prices, one bid ladder a branch, one ask ladder
    an issuer leg, and what all of them together commit. */
module MarketMaker {
  import opened Exact
  import opened Rules
  import opened Conversion
  import opened State
  import opened Quoter
  import P = Planner

  datatype Settings = Settings(levels: nat, spacing: nat, half: nat, adverse: nat, maxHalf: nat) {
    predicate Valid() {
      1 <= levels <= 10 && 1 <= spacing && 1 <= half && maxHalf <= 4_000
    }
  }

  /** Best prices of others on a leg. */
  datatype Top = Top(bid: Rules.Option<nat>, ask: Rules.Option<nat>)
  type Books = s: seq<map<nat, Top>> | |s| == 2 witness [map[], map[]]

  datatype Input = Input(
    tick: u64, step: u64, maxOrder: u64, maxWallet: u64, maxMarket: u64, maxQuantity: u64, minNotional: u64,
      bases: BaseCount,
    spot: int, probability: int, spread: nat, gapBps: int, balances: Amounts, legs: map<nat, P.LegState>,
    target: int, orderQuote: int, makerBps: int, movement: nat, settings: Settings, best: Books)

  // ---------------------------------------------------------------- fair prices

  /** Division of the source: toward zero. */
  function TowardZero(n: int, d: nat): int
    requires d > 0
  {
    if n >= 0 then n / d else -((-n) / d)
  }

  function Magnitude(x: int): nat {
    if x >= 0 then x else -x
  }

  /** What a share is worth if the event does, and does not, happen: apart by the gap, on average the spot. */
  function FairPrices(spot: int, p: int, gapBps: int): Rules.Result<(nat, nat)> {
    if spot <= 0 || spot > U128_MAX || p <= 0 || p >= PROB || Magnitude(gapBps) > 7_500 then
       Err(Error.InvalidTerms) else
    var gap := TowardZero(spot * gapBps, BPS);
    var yes, no := spot + TowardZero((PROB - p) * gap, PROB), spot - TowardZero(p * gap, PROB);
    if yes <= 0 || no <= 0 || yes > U128_MAX || no > U128_MAX then Err(Error.InvalidTerms) else Ok((yes, no))
  }

  lemma TowardZeroIs(n: int, d: int)
    requires d > 0
    ensures -d < n - TowardZero(n, d) * d < d
    ensures n >= 0 ==> 0 <= TowardZero(n, d) && TowardZero(n, d) * d <= n
    ensures n <= 0 ==> TowardZero(n, d) <= 0 && n <= TowardZero(n, d) * d
  {
    if n >= 0 {
      FloorBounds(n, d);
      FloorGreatest(n, d, 0);
    } else {
      FloorBounds(-n, d);
      FloorGreatest(-n, d, 0);
      assert TowardZero(n, d) * d == -((-n) / d * d);
    }
  }

  /** The weighted parts of a gap, rounded, against the gap. */
  lemma PartsOfGap(p: int, gap: int, a: int, b: int)
    requires 0 < p < PROB
    requires -PROB < (PROB - p) * gap - a * PROB < PROB && -PROB < p * gap - b * PROB < PROB
    ensures -2 < a + b - gap < 2
    ensures -PROB < p * a - (PROB - p) * b < PROB
  {
    var ra, rb := (PROB - p) * gap - a * PROB, p * gap - b * PROB;
    assert (PROB - p) * gap + p * gap == PROB * gap;
    assert p * ((PROB - p) * gap) == (PROB - p) * (p * gap);
    assert p * (a * PROB + ra) == p * a * PROB + p * ra;
    assert (PROB - p) * (b * PROB + rb) == (PROB - p) * b * PROB + (PROB - p) * rb;
    assert (p * a - (PROB - p) * b) * PROB == (PROB - p) * rb - p * ra;
    Between(PROB - p, rb, PROB);
    Between(p, ra, PROB);
    CancelStrict(p * a - (PROB - p) * b, PROB, PROB);
    CancelStrict(-PROB, p * a - (PROB - p) * b, PROB);
  }

  lemma Between(w: nat, x: int, bound: int)
    requires w > 0 && -bound < x < bound
    ensures -(w * bound) < w * x < w * bound
  {
    MulMono(x + 1, bound, w);
    MulMono(-bound, x - 1, w);
  }

  /** The two prices around the spot, given the gap and its weighted parts. */
  lemma PricesAround(spot: int, p: int, gap: int, a: int, b: int)
    requires 0 < p < PROB && a == TowardZero((PROB - p) * gap, PROB) && b == TowardZero(p * gap, PROB)
    ensures (gap >= 0 ==> a >= 0 && b >= 0) && (gap <= 0 ==> a <= 0 && b <= 0)
    ensures -2 < a + b - gap < 2
    ensures -PROB < p * (spot + a) + (PROB - p) * (spot - b) - PROB * spot < PROB
  {
    hide TowardZero;
    TowardZeroIs((PROB - p) * gap, PROB);
    TowardZeroIs(p * gap, PROB);
    Signs(PROB - p, gap);
    Signs(p, gap);
    PartsOfGap(p, gap, a, b);
    Spread(p, spot, a, b);
  }

  lemma Spread(p: int, spot: int, a: int, b: int)
    ensures p * (spot + a) + (PROB - p) * (spot - b) == PROB * spot + p * a - (PROB - p) * b
  {
    assert p * (spot + a) == p * spot + p * a;
    assert (PROB - p) * (spot - b) == (PROB - p) * spot - (PROB - p) * b;
    assert (PROB - p) * spot == PROB * spot - p * spot;
  }

  /** What a share is worth if the event happens and if it does not: a favourable event prices it above
      the spot and its failure below, they are the gap apart, and on average, at the probability of
      the event, it is worth the spot; each up to rounding. */
  lemma FairPricesAre(spot: int, p: int, gapBps: int)
    requires FairPrices(spot, p, gapBps).Ok?
    ensures var (yes, no) := FairPrices(spot, p, gapBps).value;
            && 0 < yes <= U128_MAX && 0 < no <= U128_MAX
            && (gapBps >= 0 ==> yes >= spot >= no) && (gapBps <= 0 ==> yes <= spot <= no)
            && -2 * BPS < (yes - no) * BPS - spot * gapBps < 2 * BPS
            && -PROB < p * yes + (PROB - p) * no - PROB * spot < PROB
  {
    hide TowardZero;
    var gap := TowardZero(spot * gapBps, BPS);
    TowardZeroIs(spot * gapBps, BPS);
    Signs(spot, gapBps);
    PricesAround(spot, p, gap, TowardZero((PROB - p) * gap, PROB), TowardZero(p * gap, PROB));
  }

  lemma Signs(positive: nat, x: int)
    requires positive > 0
    ensures x >= 0 ==> positive * x >= 0
    ensures x <= 0 ==> positive * x <= 0
  {
  }

  // --------------------------------------------------------------- what is committed

  predicate LegReady(input: Input, c: nat) {
    c in input.legs && input.legs[c].scale > 0 && MultiplierParts(input.legs[c].multiplier).Ok?
  }

  predicate LegsReady(input: Input) {
    forall c | 1 <= c <= input.bases :: LegReady(input, c)
  }

  predicate BalancesOk(input: Input) {
    forall a | 0 <= a < ASSETS :: 0 <= input.balances[a] <= U64_MAX
  }

  /** Share units of a branch held in one leg's claims. */
  function Held(input: Input, branch: nat, c: nat): nat
    requires LegReady(input, c) && c < COLLATERALS && branch < 2 && BalancesOk(input)
  {
    ShareUnits(input.balances[Claim(c, branch)], input.legs[c].scale, MultiplierParts(input.legs[c].multiplier).value)
  }

  function Sells(input: Input, branch: nat, c: nat): bool
    requires LegReady(input, c) && c < COLLATERALS && branch < 2 && BalancesOk(input)
  {
    input.legs[c].tradable && Held(input, branch, c) > 0
  }

  function HeldTo(input: Input, branch: nat, n: nat): nat
    requires LegsReady(input) && BalancesOk(input) && branch < 2 && n <= input.bases
  {
    if n == 0 then 0 else HeldTo(input, branch, n - 1) + Held(input, branch, n)
  }

  function AskableTo(input: Input, branch: nat, n: nat): nat
    requires LegsReady(input) && BalancesOk(input) && branch < 2 && n <= input.bases
  {
    if n == 0 then 0 else AskableTo(input, branch, n - 1) + (if Sells(input, branch, n) then Held(input, branch, n)
       else 0)
  }

  function Tradable(input: Input): set<nat> {
    set c | 1 <= c <= input.bases && c in input.legs && input.legs[c].tradable
  }

  predicate Quotable(input: Input) {
    && LegsReady(input) && BalancesOk(input) && input.tick > 0 && input.step > 0 && input.target > 0
    && input.settings.Valid()
  }

  function LimitsOf(input: Input, half: nat): Limits {
    Limits(input.tick, input.step, input.maxOrder, input.maxQuantity, input.minNotional,
           input.settings.levels, input.settings.spacing, half, input.settings.maxHalf)
  }

  /** The most of a branch still wanted: twice the target, less what is held. */
  function Wanted(input: Input, branch: nat): nat
    requires Quotable(input) && branch < 2
  {
    Higher(0, 2 * input.target - HeldTo(input, branch, input.bases))
  }

  function AsksOf(tops: map<nat, Top>, legs: set<nat>, n: nat): seq<int> {
    if n == 0 then [] else
    AsksOf(tops, legs, n - 1) + (if n in legs && n in tops && tops[n].ask.Some? then [tops[n].ask.value] else [])
  }

  function BidOf(tops: map<nat, Top>, c: nat): seq<int> {
    if c in tops && tops[c].bid.Some? then [tops[c].bid.value] else []
  }

  /** One bid ladder for all tradable legs, sized by the room left in the branch. */
  function BidLadder(input: Input, center: nat, budget: nat, branch: nat): Ladder
    requires Quotable(input) && branch < 2
  {
    var room := Wanted(input, branch);
    Ladder(branch, 0, Tradable(input), center, room, input.balances[Claim(QUOTE, branch)], budget,
           Lower(BPS, Per(room, BPS, input.target)), AsksOf(input.best[branch], Tradable(input), input.bases), None)
  }

  /** One ask ladder a leg, sized by that leg's claims, its budget in proportion to them. */
  function AskLadder(input: Input, center: nat, budget: nat, branch: nat, c: nat): Ladder
    requires Quotable(input) && branch < 2 && 1 <= c <= input.bases && Sells(input, branch, c)
    requires AskableTo(input, branch, input.bases) > 0
  {
    Ladder(branch, 1, {c}, center, Held(input, branch, c), input.balances[Claim(c, branch)],
           Per(budget, Held(input, branch, c), AskableTo(input, branch, input.bases)),
           Lower(BPS, Per(HeldTo(input, branch, input.bases), BPS, input.target)), BidOf(input.best[branch], c),
             Some(input.legs[c]))
  }

  /** What one branch quotes: bids, and asks by leg, counted from one. */
  datatype Branch = Branch(bids: seq<Quote>, asks: seq<seq<Quote>>)

  predicate AskOk(input: Input, l: Limits, center: nat, budget: nat, branch: nat, c: nat, asks: seq<Quote>)
    requires Quotable(input) && branch < 2 && 1 <= c <= input.bases && l.Valid() && center > 0
  {
    if !Sells(input, branch, c) then asks == [] else
    && AskableTo(input, branch, input.bases) > 0
    && AskLadder(input, center, budget, branch, c).Valid()
    && LadderOk(l, AskLadder(input, center, budget, branch, c), asks)
    && asks == LadderTo(l, AskLadder(input, center, budget, branch, c), l.levels)
  }

  /** The rungs a leg's asks would have all convert into the issuer's units. */
  predicate AskConverts(input: Input, l: Limits, center: nat, budget: nat, branch: nat, c: nat)
    requires Quotable(input) && branch < 2 && 1 <= c <= input.bases && l.Valid() && center > 0
  {
    Sells(input, branch, c) && AskableTo(input, branch, input.bases) > 0
      && AskLadder(input, center, budget, branch, c).Valid()
    ==> Converts(AskLadder(input, center, budget, branch, c),
                 LadderTo(l, AskLadder(input, center, budget, branch, c), l.levels))
  }

  predicate AsksConvert(input: Input, l: Limits, center: nat, budget: nat, branch: nat)
    requires Quotable(input) && branch < 2 && l.Valid() && center > 0
  {
    forall c | 1 <= c <= input.bases :: AskConverts(input, l, center, budget, branch, c)
  }

  predicate BranchOk(input: Input, l: Limits, center: nat, budget: nat, branch: nat, b: Branch)
    requires Quotable(input) && branch < 2 && l.Valid() && center > 0
  {
    && |b.asks| == input.bases + 1
    && (if Tradable(input) == {} then b.bids == [] else
        BidLadder(input, center, budget, branch).Valid()
          && LadderOk(l, BidLadder(input, center, budget, branch), b.bids)
        && b.bids == LadderTo(l, BidLadder(input, center, budget, branch), l.levels))
    && forall c | 1 <= c <= input.bases :: AskOk(input, l, center, budget, branch, c, b.asks[c])
  }

  // ------------------------------------------------------------------ the quotes

  lemma {:induction false} AskableCovers(input: Input, branch: nat, c: nat, n: nat)
    requires LegsReady(input) && BalancesOk(input) && branch < 2 && 1 <= c <= n <= input.bases
             && Sells(input, branch, c)
    ensures AskableTo(input, branch, n) >= Held(input, branch, c) > 0
  {
    hide Held;
    if c < n {
      AskableCovers(input, branch, c, n - 1);
    }
  }

  /** What a branch holds in each leg, and altogether. */
  method Holdings(input: Input, branch: nat) returns (held: seq<nat>, total: nat, askable: nat)
    requires LegsReady(input) && BalancesOk(input) && branch < 2
    ensures |held| == input.bases + 1 && forall c | 1 <= c <= input.bases :: held[c] == Held(input, branch, c)
    ensures total == HeldTo(input, branch, input.bases) && askable == AskableTo(input, branch, input.bases)
  {
    hide ShareUnits;
    held, total, askable := [0], 0, 0;
    for c := 1 to input.bases + 1
      invariant |held| == c && forall d | 1 <= d < c :: held[d] == Held(input, branch, d)
      invariant total == HeldTo(input, branch, c - 1) && askable == AskableTo(input, branch, c - 1)
    {
      assert LegReady(input, c);
      var units := ShareUnits(input.balances[Claim(c, branch)], input.legs[c].scale,
                              MultiplierParts(input.legs[c].multiplier).value);
      held, total := held + [units], total + units;
      if input.legs[c].tradable && units > 0 { askable := askable + units; }
    }
  }

  /** One consolidated bid ladder, then an ask ladder for each leg with claims to deliver. */
  method QuoteBranch(input: Input, l: Limits, center: nat, budget: nat, branch: nat) returns (r: Rules.Result<Branch>)
    requires Quotable(input) && branch < 2 && l.Valid() && center > 0
    ensures r.Ok? <==> AsksConvert(input, l, center, budget, branch)
    ensures r.Ok? ==> BranchOk(input, l, center, budget, branch, r.value)
  {
    hide Held, LadderOk, LadderTo, Converts, HeldTo, AskableTo, Per, Limits.Valid, AsksOf, BidOf;
    var held, total, askable := Holdings(input, branch);
    var bids: seq<Quote> := [];
    if Tradable(input) != {} {
      var room := Higher(0, 2 * input.target - total);
      var bidding := Ladder(branch, 0, Tradable(input), center, room, input.balances[Claim(QUOTE, branch)], budget,
                            Lower(BPS, Per(room, BPS, input.target)),
                              AsksOf(input.best[branch], Tradable(input), input.bases), None);
      var quoted := QuoteLadder(l, bidding);
      NothingToConvert(bidding, LadderTo(l, bidding, l.levels));
      assert quoted.Ok?;
      bids := quoted.value;
    }
    var asks: seq<seq<Quote>> := [[]];
    for c := 1 to input.bases + 1
      invariant |asks| == c && forall d | 1 <= d < c :: AskOk(input, l, center, budget, branch, d, asks[d])
      invariant forall d | 1 <= d < c :: AskConverts(input, l, center, budget, branch, d)
    {
      assert LegReady(input, c);
      if input.legs[c].tradable && held[c] > 0 {
        AskableCovers(input, branch, c, input.bases);
        var asking := Ladder(branch, 1, {c}, center, held[c], input.balances[Claim(c, branch)],
                             Per(budget, held[c], askable), Lower(BPS, Per(total, BPS, input.target)),
                             BidOf(input.best[branch], c), Some(input.legs[c]));
        var quoted := QuoteLadder(l, asking);
        assert asking == AskLadder(input, center, budget, branch, c);
        if quoted.Err? {
          assert !AskConverts(input, l, center, budget, branch, c);
          return Err(quoted.error);
        }
        asks := asks + [quoted.value];
      } else {
        asks := asks + [[]];
      }
    }
    r := Ok(Branch(bids, asks));
  }

  lemma NothingToConvert(o: Ladder, qs: seq<Quote>)
    requires o.convert.None?
    ensures Converts(o, qs)
  {
  }

  function Flat(asks: seq<seq<Quote>>): seq<Quote> {
    if asks == [] then [] else Flat(asks[..|asks| - 1]) + asks[|asks| - 1]
  }

  function HalfSpread(input: Input): nat
    requires 0 <= input.makerBps <= 1_000
  {
    var feeEdge := CeilDiv(input.makerBps * BPS, BPS - input.makerBps);
    Products(input.spread, Magnitude(input.gapBps));
    Higher(input.settings.half,
           feeEdge + input.settings.adverse + input.movement * 2
             + CeilDiv(input.spread * Magnitude(input.gapBps), PROB))
  }

  function TotalBudget(input: Input): int {
    Lower(Lower(input.orderQuote, input.maxOrder * input.settings.levels),
          Lower(input.maxWallet / 4, input.maxMarket / 4))
  }

  /** The spread covers every risk it is built from; and at half of it or more above the fair price, what
      a sale pays net of the maker's fee is no less than the fair price. */
  lemma SpreadCovers(input: Input)
    requires 0 <= input.makerBps <= 1_000
    ensures var half := HalfSpread(input);
            && half >= input.settings.half
            && half >= input.settings.adverse + 2 * input.movement
            && PROB * (half - input.settings.adverse - 2 * input.movement) >= input.spread * Magnitude(input.gapBps)
            && (BPS + half) * (BPS - input.makerBps) >= BPS * BPS
  {
    hide Magnitude;
    var fee := CeilDiv(input.makerBps * BPS, BPS - input.makerBps);
    var half, risk := HalfSpread(input), CeilDiv(input.spread * Magnitude(input.gapBps), PROB);
    Products(input.spread, Magnitude(input.gapBps));
    CeilBounds(input.makerBps * BPS, BPS - input.makerBps);
    CeilBounds(input.spread * Magnitude(input.gapBps), PROB);
    CeilLeast(input.makerBps * BPS, BPS - input.makerBps, 0);
    MulMono(fee, half, BPS - input.makerBps);
    assert (BPS + half) * (BPS - input.makerBps) == BPS * BPS - BPS * input.makerBps + half * (BPS - input.makerBps);
  }

  /** A round commits no more to a side than the order size asked for, than the market's largest orders
      on every level, or than a quarter of what the market lets a wallet or itself be exposed to; and
      as much as all of these allow. */
  lemma BudgetIsLargest(input: Input, x: int)
    ensures x <= TotalBudget(input) <==>
              && x <= input.orderQuote && x <= input.maxOrder * input.settings.levels
              && 4 * x <= input.maxWallet && 4 * x <= input.maxMarket
  {
  }

  /** Bids want less the more is held: all of their size up to the target, none at twice the target. */
  lemma BidsLeanAgainst(input: Input, center: nat, budget: nat, branch: nat)
    requires Quotable(input) && branch < 2
    ensures var o, held := BidLadder(input, center, budget, branch), HeldTo(input, branch, input.bases);
            && o.room == (if held >= 2 * input.target then 0 else 2 * input.target - held)
            && (held <= input.target ==> o.skew == BPS) && (held >= 2 * input.target ==> o.skew == 0)
            && o.skew * input.target <= o.room * BPS
  {
    hide HeldTo, Tradable, AsksOf;
    var room := Wanted(input, branch);
    Products(room, BPS);
    FloorBounds(room * BPS, input.target);
    FloorGreatest(room * BPS, input.target, BPS);
    FloorOfMultiple(0, input.target);
    MulMono(Lower(BPS, Per(room, BPS, input.target)), Per(room, BPS, input.target), input.target);
  }

  /** Asks offer more the more is held: a share of their size in proportion up to the target, all of it
      from there. */
  lemma AsksLeanWith(input: Input, center: nat, budget: nat, branch: nat, c: nat)
    requires Quotable(input) && branch < 2 && 1 <= c <= input.bases && Sells(input, branch, c)
    requires AskableTo(input, branch, input.bases) > 0
    ensures var o, held := AskLadder(input, center, budget, branch, c), HeldTo(input, branch, input.bases);
            && o.room == Held(input, branch, c) && (held >= input.target ==> o.skew == BPS)
            && o.skew * input.target <= held * BPS
  {
    hide HeldTo, AskableTo, Held, BidOf;
    var held := HeldTo(input, branch, input.bases);
    Products(held, BPS);
    FloorBounds(held * BPS, input.target);
    FloorGreatest(held * BPS, input.target, BPS);
    MulMono(Lower(BPS, Per(held, BPS, input.target)), Per(held, BPS, input.target), input.target);
  }

  /** What a round needs of its input before it looks at the legs. */
  predicate Admitted(input: Input) {
    && input.tick > 0 && input.step > 0 && input.target > 0 && BalancesOk(input) && input.orderQuote > 0
    && 0 <= input.makerBps <= 1_000 && FairPrices(input.spot, input.probability, input.gapBps).Ok?
  }

  /** A round that quotes: the spread it needs is allowed and the state of every listed leg is known. */
  predicate Quoting(input: Input)
    requires input.settings.Valid()
  {
    && Admitted(input) && HalfSpread(input) <= input.settings.maxHalf && Quotable(input) && TotalBudget(input) >= 0
    && LimitsOf(input, HalfSpread(input)).Valid()
    && var fair := FairPrices(input.spot, input.probability, input.gapBps).value; fair.0 > 0 && fair.1 > 0
  }

  predicate RoundConverts(input: Input)
    requires input.settings.Valid() && Quoting(input)
  {
    var l, fair := LimitsOf(input, HalfSpread(input)), FairPrices(input.spot, input.probability, input.gapBps).value;
    && AsksConvert(input, l, fair.0, TotalBudget(input), 0) && AsksConvert(input, l, fair.1, TotalBudget(input), 1)
  }

  /** A round of quotes, or none when the spread it needs is wider than allowed. It answers exactly when
      its input is admitted and, unless there is nothing to quote, every leg is known and every ask
      converts; it quotes exactly the rungs of its ladders. */
  method Quotes(input: Input) returns (r: Rules.Result<seq<Quote>>, ghost branches: seq<Branch>)
    requires input.settings.Valid()
    ensures r.Ok? <==>
            Admitted(input) && (HalfSpread(input) > input.settings.maxHalf
                                  || (Quoting(input) && RoundConverts(input)))
    ensures r.Ok? && HalfSpread(input) > input.settings.maxHalf ==> r.value == []
    ensures r.Ok? && HalfSpread(input) <= input.settings.maxHalf ==>
              var l, fair := LimitsOf(input, HalfSpread(input)),
                  FairPrices(input.spot, input.probability, input.gapBps).value;
              && |branches| == 2
              && BranchOk(input, l, fair.0, TotalBudget(input), 0, branches[0])
              && BranchOk(input, l, fair.1, TotalBudget(input), 1, branches[1])
              && r.value == branches[0].bids + Flat(branches[0].asks) + branches[1].bids + Flat(branches[1].asks)
  {
    hide LegReady, BranchOk, Tradable, AsksConvert;
    branches := [];
    if input.tick <= 0 || input.step <= 0 || input.target <= 0 || !BalancesOk(input) || input.orderQuote <= 0
       || !(0 <= input.makerBps <= 1_000)
    { return Err(Error.InvalidTerms), []; }
    var fair := FairPrices(input.spot, input.probability, input.gapBps);
    if fair.Err? { return Err(fair.error), []; }
    BudgetIsPositive(input);
    var half := HalfSpread(input);
    if half > input.settings.maxHalf { return Ok([]), []; }
    if !LegsReady(input) { return Err(Error.InvalidTerms), []; }
    var budget := TotalBudget(input);
    var l := LimitsOf(input, half);
    var yes := QuoteBranch(input, l, fair.value.0, budget, 0);
    if yes.Err? { return Err(yes.error), []; }
    var no := QuoteBranch(input, l, fair.value.1, budget, 1);
    if no.Err? { return Err(no.error), []; }
    branches := [yes.value, no.value];
    r := Ok(yes.value.bids + Flat(yes.value.asks) + no.value.bids + Flat(no.value.asks));
  }

  lemma BudgetIsPositive(input: Input)
    requires input.orderQuote > 0
    ensures TotalBudget(input) >= 0
  {
    Products(input.maxOrder, input.settings.levels);
  }

  // ------------------------------------------------------- what the quotes promise

  /** Every quote is an order the market takes: whole steps at a whole tick, between its least and its largest
      notional and within its largest quantity, and at least the half spread and its level's spacing away
      from the fair price. Bids accept every tradable leg, asks deliver their own. */
  lemma QuotesAreOrders(input: Input, half: nat, center: nat, budget: nat, branch: nat, b: Branch, c: nat, q: Quote)
    requires Quotable(input) && branch < 2 && center > 0 && LimitsOf(input, half).Valid()
    requires BranchOk(input, LimitsOf(input, half), center, budget, branch, b) && c <= input.bases
    requires if c == 0 then q in b.bids else q in b.asks[c]
    ensures q.branch == branch && q.side == (if c == 0 then 0 else 1)
            && q.bases == (if c == 0 then Tradable(input) else {c})
    ensures 0 < q.quantity <= input.maxQuantity && q.quantity % input.step == 0
            && 0 < q.price <= U128_MAX && q.price % input.tick == 0
            && input.minNotional <= Floor(q.quantity, q.price) && Ceil(q.quantity, q.price) <= input.maxOrder
    ensures var edge := half + input.settings.spacing * q.level;
            && q.level < input.settings.levels && edge <= input.settings.maxHalf
            && (if c == 0 then q.price * BPS <= center * (BPS - edge) else q.price * BPS >= center * (BPS + edge))
  {
    hide Held, HeldTo, AskableTo, Per, ShareUnits, Shares, Notional, Reserved, Monotone, AsksOf, LadderTo, Tradable,
      Floor, Ceil;
    var l := LimitsOf(input, half);
    assert c > 0 ==> AskOk(input, l, center, budget, branch, c, b.asks[c]);
    var o := if c == 0 then BidLadder(input, center, budget, branch) else AskLadder(input, center, budget, branch, c);
    assert RungOk(l, o, q);
    RungsKeepTheSpread(l, o, l.levels, q);
  }

  /** Within a branch, every bid is below the fair price and every ask above it, whichever leg it
      delivers; and none reaches the best price of another. */
  lemma BidsBelowAsks(input: Input, l: Limits, center: nat, budget: nat, branch: nat, b: Branch, bid: Quote, c: nat,
                      ask: Quote)
    requires Quotable(input) && branch < 2 && l.Valid() && center > 0 && BranchOk(input, l, center, budget, branch, b)
    requires bid in b.bids && 1 <= c <= input.bases && ask in b.asks[c]
    ensures bid.price < center < ask.price
    ensures forall d | d in Tradable(input) && d in input.best[branch] && input.best[branch][d].ask.Some? ::
              bid.price < input.best[branch][d].ask.value
    ensures c in input.best[branch] && input.best[branch][c].bid.Some? ==> ask.price > input.best[branch][c].bid.value
  {
    hide Held, HeldTo, AskableTo, Per, ShareUnits, Shares, Notional, Reserved, Monotone, AsksOf;
    assert AskOk(input, l, center, budget, branch, c, b.asks[c]);
    var bidding := BidLadder(input, center, budget, branch);
    assert RungOk(l, bidding, bid) && RungOk(l, AskLadder(input, center, budget, branch, c), ask);
    forall d | d in Tradable(input) && d in input.best[branch] && input.best[branch][d].ask.Some?
      ensures bid.price < input.best[branch][d].ask.value
    {
      AsksAreListed(input.best[branch], Tradable(input), d, input.bases);
      assert input.best[branch][d].ask.value in bidding.foreign;
    }
    if c in input.best[branch] && input.best[branch][c].bid.Some? {
      assert input.best[branch][c].bid.value in AskLadder(input, center, budget, branch, c).foreign;
    }
  }

  lemma {:induction false} AsksAreListed(tops: map<nat, Top>, legs: set<nat>, c: nat, n: nat)
    requires 1 <= c <= n && c in legs && c in tops && tops[c].ask.Some?
    ensures tops[c].ask.value in AsksOf(tops, legs, n)
  {
    if c < n {
      AsksAreListed(tops, legs, c, n - 1);
    }
  }

  /** Filling every bid leaves the branch with no more than it holds, or twice the target. */
  lemma PositionIsBounded(input: Input, l: Limits, center: nat, budget: nat, branch: nat, b: Branch)
    requires Quotable(input) && branch < 2 && l.Valid() && center > 0 && BranchOk(input, l, center, budget, branch, b)
    ensures HeldTo(input, branch, input.bases) + Shares(b.bids)
            <= Higher(HeldTo(input, branch, input.bases), 2 * input.target)
    ensures Notional(b.bids) <= input.balances[Claim(QUOTE, branch)]
            && (Tradable(input) != {} ==> Notional(b.bids) <= budget)
  {
    hide Held, HeldTo, AskableTo, Per, ShareUnits, RungOk, Monotone, AsksOf;
    if Tradable(input) != {} {
      BidsReserveCash(BidLadder(input, center, budget, branch), b.bids);
    }
  }

  lemma {:induction false} BidsReserveCash(o: Ladder, qs: seq<Quote>)
    requires o.Valid() && o.side == 0
    ensures Reserved(o, qs) == Notional(qs)
  {
    hide Ceil;
    if qs != [] {
      BidsReserveCash(o, qs[..|qs| - 1]);
    }
  }

  /** The asks of a leg reserve no more of its claims than are held. */
  lemma ClaimsCoverAsks(input: Input, l: Limits, center: nat, budget: nat, branch: nat, b: Branch, c: nat)
    requires Quotable(input) && branch < 2 && l.Valid() && center > 0 && BranchOk(input, l, center, budget, branch, b)
    requires 1 <= c <= input.bases && Sells(input, branch, c)
    ensures AskableTo(input, branch, input.bases) > 0 && AskLadder(input, center, budget, branch, c).Valid()
    ensures Reserved(AskLadder(input, center, budget, branch, c), b.asks[c]) <= input.balances[Claim(c, branch)]
    ensures Shares(b.asks[c]) <= Held(input, branch, c)
  {
    hide Held, HeldTo, AskableTo, Per, ShareUnits, RungOk, Monotone;
    assert AskOk(input, l, center, budget, branch, c, b.asks[c]);
  }

  /** Of the asks of the first n legs. */
  function NotionalTo(asks: seq<seq<Quote>>, n: nat): nat
    requires n < |asks|
  {
    if n == 0 then 0 else NotionalTo(asks, n - 1) + Notional(asks[n])
  }

  /** The asks of all issuers together stay within the side's budget. */
  lemma AsksShareTheBudget(input: Input, l: Limits, center: nat, budget: nat, branch: nat, b: Branch)
    requires Quotable(input) && branch < 2 && l.Valid() && center > 0 && BranchOk(input, l, center, budget, branch, b)
    ensures NotionalTo(b.asks, input.bases) <= budget
  {
    hide Held, HeldTo, AskableTo, Per, RungOk, BidLadder, BranchOk;
    BranchAsks(input, l, center, budget, branch, b);
    if AskableTo(input, branch, input.bases) == 0 {
      NoAsks(input, l, center, budget, branch, b, input.bases);
    } else {
      AsksWithinShares(input, l, center, budget, branch, b, input.bases);
      PerAtMost(budget, AskableTo(input, branch, input.bases), AskableTo(input, branch, input.bases));
    }
  }

  lemma BranchAsks(input: Input, l: Limits, center: nat, budget: nat, branch: nat, b: Branch)
    requires Quotable(input) && branch < 2 && l.Valid() && center > 0 && BranchOk(input, l, center, budget, branch, b)
    ensures |b.asks| == input.bases + 1 && forall c | 1 <= c <= input.bases ::
            AskOk(input, l, center, budget, branch, c, b.asks[c])
  {
    hide AskOk, LadderOk;
  }

  lemma {:induction false} NoAsks(input: Input, l: Limits, center: nat, budget: nat, branch: nat, b: Branch, n: nat)
    requires Quotable(input) && branch < 2 && l.Valid() && center > 0 && n <= input.bases == |b.asks| - 1
    requires forall c | 1 <= c <= input.bases :: AskOk(input, l, center, budget, branch, c, b.asks[c])
    requires AskableTo(input, branch, input.bases) == 0
    ensures NotionalTo(b.asks, n) == 0
  {
    hide Held, Per, LadderOk, AskLadder;
    if n > 0 {
      NoAsks(input, l, center, budget, branch, b, n - 1);
      assert AskOk(input, l, center, budget, branch, n, b.asks[n]);
    }
  }

  /** Proportional shares, each rounded down, add up to no more than their part of the whole. */
  lemma {:induction false} AsksWithinShares(input: Input, l: Limits, center: nat, budget: nat, branch: nat, b: Branch,
                                            n: nat)
    requires Quotable(input) && branch < 2 && l.Valid() && center > 0 && n <= input.bases == |b.asks| - 1
    requires forall c | 1 <= c <= input.bases :: AskOk(input, l, center, budget, branch, c, b.asks[c])
    requires AskableTo(input, branch, input.bases) > 0
    ensures NotionalTo(b.asks, n) <= Per(budget, AskableTo(input, branch, n), AskableTo(input, branch, input.bases))
  {
    hide Held, Per, RungOk;
    var all := AskableTo(input, branch, input.bases);
    if n > 0 {
      AsksWithinShares(input, l, center, budget, branch, b, n - 1);
      assert AskOk(input, l, center, budget, branch, n, b.asks[n]);
      if Sells(input, branch, n) {
        SharesAdd(budget, AskableTo(input, branch, n - 1), Held(input, branch, n), all);
      }
    }
  }

  lemma SharesAdd(budget: nat, m: nat, k: nat, all: nat)
    requires all > 0
    ensures Per(budget, m, all) + Per(budget, k, all) <= Per(budget, m + k, all)
  {
    Products(budget, m);
    Products(budget, k);
    assert budget * (m + k) == budget * m + budget * k;
    FloorsAdd(budget * m, budget * k, all);
  }

  lemma FloorsAdd(a: nat, b: nat, d: nat)
    requires d > 0
    ensures a / d + b / d <= (a + b) / d
  {
    var q, r := a / d, b / d;
    FloorBounds(a, d);
    FloorBounds(b, d);
    Distributes(q, r, d);
    FloorGreatest(a + b, d, q + r);
  }

  lemma Distributes(q: int, r: int, d: int)
    ensures (q + r) * d == q * d + r * d
  {
  }
}
