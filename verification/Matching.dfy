/** A placement over one market: which planned makers survive, and the trades, release and
    race record that follow. */
module Matching {
  import opened Exact
  import opened Rules
  import opened Sums
  import opened Conversion
  import opened State
  import opened Settlement
  import opened InFlight

  datatype Plan = Plan(deadline: int, nextSequence: u64, minFill: u64, makerBps: u16, takerBps: u16, legs: seq<u64>)

  /** The issuer's live state of one leg: pause switch, vault freeze, multiplier. */
  datatype LegLive = LegLive(paused: bool, frozen: bool, multiplier: u64)

  type Live = s: seq<LegLive> | |s| == COLLATERALS
    witness seq(4, _ => LegLive(false, false, UNIT_MULTIPLIER))

  datatype Config = Config(paused: bool, makerBps: u16, takerBps: u16)

  /** One place instruction: the terms, the plan, the accounts it presents and the live state
      of the legs. `lapsed` are the makers whose trading grant no longer authorizes them. */
  datatype Request = Request(
    owner: Pubkey, terms: OrderTerms, plan: Plan, makers: seq<OrderKey>, participants: seq<Pubkey>,
    frames: seq<Frame>, touched: set<nat>, live: Live, lapsed: set<OrderKey>)
  {
    function Key(): OrderKey {
      OrderKey(owner, terms.salt)
    }

    /** The collaterals whose custody is presented. */
    function Custody(): set<nat> {
      var quote: nat := QUOTE;
      touched + {quote}
    }

    /** A leg's custody is presented exactly when it is touched; the quote's always is. */
    predicate Presented(collateral: nat) {
      collateral == QUOTE || collateral in touched
    }
  }

  // ------------------------------------------------------- reviewing the plan

  datatype Verdict = Skip | Reject(error: ProtocolError) | Take(quantity: u64)

  function Min(a: int, b: int): int {
    if a <= b then a else b
  }

  /** A malformed plan leg fails the placement; a stale one is skipped. */
  predicate WellPlanned(r: Request, planned: u64, o: Order) {
    var (bid, ask) := if r.terms.side == 0 then (r.terms, o.terms) else (o.terms, r.terms);
    && planned > 0 && o.terms.tif == 0 && o.terms.branch == r.terms.branch && o.terms.side != r.terms.side
    && o.sequence < r.plan.nextSequence && bid.Accepts(ask.Collateral())
  }

  /** The leg a maker and the taker trade. */
  function TradedBase(r: Request, o: Order): nat {
    if r.terms.side == 0 then o.terms.Collateral() else r.terms.Collateral()
  }

  /** Remaining quantities are 64-bit fields. */
  predicate Sized(orders: map<OrderKey, Order>) {
    forall k | k in orders :: 0 <= orders[k].remaining <= U64_MAX
  }

  /** Whether a planned maker is skipped, fails the placement, or trades and how much. */
  function Review(m: Market, orders: map<OrderKey, Order>, traders: map<Pubkey, u64>, config: Config, now: int,
                  r: Request, key: OrderKey, planned: u64): Verdict
    requires Sized(orders)
  {
    if key !in orders then Skip else
    var o := orders[key];
    if o.status != LIVE then Skip else
    if !WellPlanned(r, planned, o) then Reject(StalePlan) else
    if ValidExpiry(now, o.terms.expiry, m.terms.tradingCutoff).Err? then Skip else
    if key.owner !in r.participants || key.owner !in traders then Reject(InvalidAccount) else
    if ValidNonce(o.terms.nonce, traders[key.owner]).Err? then Skip else
    if config.makerBps > o.terms.maxFeeBps then Skip else
    if key in r.lapsed then Skip else
    if o.terms.recipient !in r.participants then Reject(InvalidAccount) else
    if config.takerBps > r.terms.maxFeeBps then Reject(FeeCap) else
    var quantity := Min(planned, o.remaining);
    if r.terms.side == 0 then ReviewAsk(m, r, key, o, quantity) else ReviewBid(m, r, key, o, quantity)
  }

  /** A maker ask must deliver within its reservation; completing it returns a surplus, which
      needs a credit frame if it was pool-funded. */
  function ReviewAsk(m: Market, r: Request, key: OrderKey, o: Order, quantity: u64): Verdict {
    var base := o.terms.Collateral();
    if base !in r.touched || !(1 <= base <= MAX_BASES) then Reject(InvalidAccount) else
    match BaseRaw(quantity, m.legs[base - 1].scale, r.live[base].multiplier, false)
    case Err(_) => Reject(ProtocolError.InvalidTerms)
    case Ok(raw) =>
      if raw == 0 || raw > o.reserved
         || (quantity == o.remaining && o.reserved > raw && o.terms.funding == 0
             && Frame(key.owner, base) !in r.frames)
      then Skip
      else Take(quantity)
  }

  /** A maker bid's price improvement needs a credit frame if it was pool-funded. */
  function ReviewBid(m: Market, r: Request, key: OrderKey, o: Order, quantity: u64): Verdict
    requires 0 <= o.remaining <= U64_MAX
  {
    match Fill(quantity, m.terms.caps.step, o.remaining, quantity, o.terms.price, r.terms.price, true)
    case Err(_) => Reject(ProtocolError.InvalidTerms)
    case Ok(fill) =>
      if fill.improvement > 0 && o.terms.funding == 0 && Frame(key.owner, QUOTE) !in r.frames then Skip
      else Take(quantity)
  }

  // --------------------------------------------------------- the trades to settle

  /** A surviving maker and the quantity it trades. */
  datatype Pick = Pick(key: OrderKey, quantity: u64)

  /** The makers of the first n plan legs that survive the review, in plan order. */
  function Survivors(m: Market, orders: map<OrderKey, Order>, traders: map<Pubkey, u64>, config: Config, now: int,
                     r: Request, n: nat): (picks: seq<Pick>)
    requires Sized(orders) && n <= |r.makers| && n <= |r.plan.legs|
    ensures |picks| <= n
    ensures forall p | p in picks :: p.key in orders
  {
    if n == 0 then [] else
    var before := Survivors(m, orders, traders, config, now, r, n - 1);
    match Review(m, orders, traders, config, now, r, r.makers[n - 1], r.plan.legs[n - 1])
    case Take(quantity) => before + [Pick(r.makers[n - 1], quantity)]
    case _ => before
  }

  /** Every survivor is a reviewed maker, and no maker survives twice. */
  lemma {:induction false} SurvivorsAreReviewed(
      m: Market, orders: map<OrderKey, Order>, traders: map<Pubkey, u64>, config: Config, now: int, r: Request, n: nat)
    requires Sized(orders) && n <= |r.makers| && n <= |r.plan.legs| && Distinct(r.makers)
    ensures var picks := Survivors(m, orders, traders, config, now, r, n);
            && (forall p | p in picks :: exists i | 0 <= i < n ::
                  p.key == r.makers[i] && Review(m, orders, traders, config, now, r, r.makers[i], r.plan.legs[i])
                    == Take(p.quantity))
            && (forall i, j | 0 <= i < j < |picks| :: picks[i].key != picks[j].key)
  {
    hide Review;
    if n > 0 {
      SurvivorsAreReviewed(m, orders, traders, config, now, r, n - 1);
      var before, picks := Survivors(m, orders, traders, config, now, r, n - 1),
          Survivors(m, orders, traders, config, now, r, n);
      forall p | p in picks
        ensures exists i | 0 <= i < n ::
                  p.key == r.makers[i] && Review(m, orders, traders, config, now, r, r.makers[i], r.plan.legs[i])
                    == Take(p.quantity)
      {
        if p in before {
          var i :| 0 <= i < n - 1 && p.key == r.makers[i]
                   && Review(m, orders, traders, config, now, r, r.makers[i], r.plan.legs[i]) == Take(p.quantity);
          assert 0 <= i < n;
        } else {
          assert p.key == r.makers[n - 1];
        }
      }
      forall i, j | 0 <= i < j < |picks|
        ensures picks[i].key != picks[j].key
      {
        assert picks[i] in before;
        var k :| 0 <= k < n - 1 && picks[i].key == r.makers[k]
                 && Review(m, orders, traders, config, now, r, r.makers[k], r.plan.legs[k]) == Take(picks[i].quantity);
        if j < |before| {
          assert picks[i] == before[i] && picks[j] == before[j];
        } else {
          assert picks[j].key == r.makers[n - 1];
        }
      }
    }
  }

  /** What a surviving maker's review established. */
  lemma ReviewTakes(m: Market, orders: map<OrderKey, Order>, traders: map<Pubkey, u64>, config: Config, now: int,
                    r: Request, key: OrderKey, planned: u64, quantity: u64)
    requires Sized(orders)
    requires Review(m, orders, traders, config, now, r, key, planned) == Take(quantity)
    ensures key in orders && orders[key].status == LIVE && WellPlanned(r, planned, orders[key])
    ensures quantity == Min(planned, orders[key].remaining)
    ensures key.owner in r.participants && key.owner in traders && orders[key].terms.recipient in r.participants
    ensures config.makerBps <= orders[key].terms.maxFeeBps && config.takerBps <= r.terms.maxFeeBps
    ensures now < orders[key].terms.expiry && traders[key.owner] <= orders[key].terms.nonce && key !in r.lapsed
    ensures if r.terms.side == 0 then ReviewAsk(m, r, key, orders[key], quantity) == Take(quantity)
            else ReviewBid(m, r, key, orders[key], quantity) == Take(quantity)
  {
    hide WellPlanned;
  }

  function TotalPicked(picks: seq<Pick>): nat {
    if picks == [] then 0 else TotalPicked(picks[..|picks| - 1]) + picks[|picks| - 1].quantity
  }

  function RawFor(m: Market, r: Request, base: nat, quantity: u64): nat
  {
    if 1 <= base <= MAX_BASES && MultiplierParts(r.live[base].multiplier).Ok?
    then RawUnits(quantity, m.legs[base - 1].scale, MultiplierParts(r.live[base].multiplier).value, false)
    else 0
  }

  /** A pick as a trade at the maker's price. */
  function TradeOf(m: Market, config: Config, r: Request, o: Order, p: Pick): Trade {
    var base := TradedBase(r, o);
    var raw := RawFor(m, r, base, p.quantity);
    if r.terms.side == 0
    then Trade(r.Key(), p.key, base, p.quantity, o.terms.price, raw, config.takerBps, config.makerBps)
    else Trade(p.key, r.Key(), base, p.quantity, o.terms.price, raw, config.makerBps, config.takerBps)
  }

  function TradesOf(m: Market, orders: map<OrderKey, Order>, config: Config, r: Request,
                    picks: seq<Pick>): (trades: seq<Trade>)
    requires forall p | p in picks :: p.key in orders
    ensures |trades| == |picks|
  {
    seq(|picks|, i requires 0 <= i < |picks| =>
                   assert picks[i] in picks;
                   TradeOf(m, config, r, orders[picks[i].key], picks[i]))
  }

  function Maker(r: Request, t: Trade): OrderKey {
    if r.terms.side == 0 then t.sell else t.buy
  }

  function Total(trades: seq<Trade>): nat {
    if trades == [] then 0 else trades[0].quantity + Total(trades[1..])
  }

  // ------------------------------------------------------------- settling a queue

  /** The same accounts, market and tokens; orders keep their terms and their sequence. */
  ghost predicate SameAccounts(b: Book, r: Book) {
    && r.wallets.Keys == b.wallets.Keys && r.orders.Keys == b.orders.Keys
    && r.market == b.market && r.tokens == b.tokens
    && forall k | k in b.orders ::
         r.orders[k].terms == b.orders[k].terms && r.orders[k].sequence == b.orders[k].sequence
  }

  lemma SettleKeepsAccounts(b: Book, t: Trade)
    requires Settleable(b, t)
    ensures SameAccounts(b, Settle(b, t))
  {
    hide Settle, SettleOrders, Improvement, Surplus, FeeOn, Floor, Ceil, CarryOn;
  }

  ghost function SettleNext(f: Flight, t: Trade): (g: Flight)
    ensures SameAccounts(f.book, g.book)
  {
    hide Settle, SettleOrders, SettleMints;
    if Settleable(f.book, t) then
      SettleKeepsAccounts(f.book, t);
      Flight(Settle(f.book, t), SettleMints(f.book, f.minted, t))
    else f
  }

  ghost function SettleAll(f: Flight, trades: seq<Trade>): (g: Flight)
    ensures SameAccounts(f.book, g.book)
    decreases |trades|
  {
    if trades == [] then f else SettleAll(SettleNext(f, trades[0]), trades[1..])
  }

  /** A reviewed maker is as the review left it. */
  ghost predicate MakerReady(b: Book, r: Request, t: Trade) {
    && (if r.terms.side == 0 then t.buy == r.Key() else t.sell == r.Key())
    && Maker(r, t) in b.orders && Maker(r, t) != r.Key()
    && var o := b.orders[Maker(r, t)];
    && o.status == LIVE && o.terms.side == 1 - r.terms.side && o.terms.branch == r.terms.branch
    && 0 < t.quantity <= o.remaining
    && b.market.terms.caps.step > 0 && t.quantity % b.market.terms.caps.step == 0
    && t.price == o.terms.price && t.Quote() > 0
    && (if r.terms.side == 0 then o.terms.price <= r.terms.price else r.terms.price <= o.terms.price)
    && t.base == TradedBase(r, o) && t.raw > 0
    && t.buyerRate <= MAX_FEE_BPS && t.sellerRate <= MAX_FEE_BPS
    && o.terms.recipient in b.wallets && r.terms.recipient in b.wallets
    && (r.terms.side == 0 ==>
          && t.raw <= o.reserved
          && (Surplus(o, t) > 0 && o.terms.funding == 0 ==> Frame(Maker(r, t).owner, t.base) in r.frames))
    && (r.terms.side == 1 ==>
          (Improvement(o, t) > 0 && o.terms.funding == 0 ==> Frame(Maker(r, t).owner, QUOTE) in r.frames))
  }

  /** The taker can still fill everything queued; a selling taker's reservation covers it. */
  ghost predicate TakerReady(b: Book, r: Request, trades: seq<Trade>, scale: nat, parts: Parts) {
    && parts.mantissa > 0 && r.terms.side < 2
    && r.Key() in b.orders
    && var o := b.orders[r.Key()];
    && o.terms == r.terms
    && (o.status == LIVE || trades == [])
    && Total(trades) <= o.remaining
    && (r.terms.funding == 0 ==> Frame(r.owner, r.terms.Collateral()) in r.frames)
    && (r.terms.side == 1 ==>
          && (o.status == LIVE ==> Covers(o.reserved, o.remaining, scale, parts))
          && forall t | t in trades ::
               t.base == r.terms.Collateral() && t.raw == RawUnits(t.quantity, scale, parts, false))
  }

  ghost predicate Queued(b: Book, r: Request, trades: seq<Trade>, scale: nat, parts: Parts) {
    && TakerReady(b, r, trades, scale, parts)
    && (forall t | t in trades :: MakerReady(b, r, t))
    && (forall i, j | 0 <= i < j < |trades| :: Maker(r, trades[i]) != Maker(r, trades[j]))
  }

  /** Every check of the settlement loop holds for the trade at the head of the queue. */
  lemma NextMatches(b: Book, r: Request, trades: seq<Trade>, scale: nat, parts: Parts)
    requires Core(b) && Queued(b, r, trades, scale, parts) && trades != []
    ensures Matches(b, trades[0]) && Settleable(b, trades[0])
  {
    hide Floor, Ceil, Improvement, Caps.ValidateOrder, Caps.Validate, Balanced, NonNegative, SingleBase;
    var t := trades[0];
    assert MakerReady(b, r, t);
    var maker, taker := b.orders[Maker(r, t)], b.orders[r.Key()];
    assert OrderOk(b.market, Maker(r, t), maker) && OrderOk(b.market, r.Key(), taker);
    if r.terms.side == 1 {
      hide RawUnits, Covers;
      DeliveryKeepsCover(taker.reserved, taker.remaining, t.quantity, scale, parts, parts);
    }
    MatchesSettles(b, t);
  }

  /** Settling the head leaves the rest of the queue as ready as it was. */
  lemma SettleKeepsQueue(b: Book, r: Request, trades: seq<Trade>, scale: nat, parts: Parts)
    requires Core(b) && Queued(b, r, trades, scale, parts) && trades != []
    requires Matches(b, trades[0]) && Settleable(b, trades[0])
    ensures Queued(Settle(b, trades[0]), r, trades[1..], scale, parts)
  {
    hide Floor, Ceil, Improvement, Surplus, Core, Settle, SettleOrders, SingleBase, Settleable, MakerReady;
    QuantitiesPositive(b, r, trades);
    var t, rest := trades[0], trades[1..];
    var after := Settle(b, t);
    assert MakerReady(b, r, t);
    forall u | u in rest
      ensures MakerReady(after, r, u)
    {
      assert u in trades && MakerReady(b, r, u);
      MakerStays(b, r, t, u);
    }
    TakerAdvances(b, r, trades, scale, parts);
  }

  lemma QuantitiesPositive(b: Book, r: Request, trades: seq<Trade>)
    requires forall t | t in trades :: MakerReady(b, r, t)
    ensures forall t | t in trades :: t.quantity > 0
  {
    hide Floor, Ceil, Improvement, Surplus, SingleBase;
    forall t | t in trades
      ensures t.quantity > 0
    {
      assert MakerReady(b, r, t);
    }
  }

  lemma MakerStays(b: Book, r: Request, t: Trade, u: Trade)
    requires MakerReady(b, r, t) && MakerReady(b, r, u) && Maker(r, t) != Maker(r, u) && Settleable(b, t)
    ensures MakerReady(Settle(b, t), r, u)
  {
    hide Floor, Ceil, Improvement, Surplus, Settle, SettleOrders, Settleable, SingleBase, Bought, Sold;
    assert Settle(b, t).orders[Maker(r, u)] == b.orders[Maker(r, u)];
  }

  lemma TakerAdvances(b: Book, r: Request, trades: seq<Trade>, scale: nat, parts: Parts)
    requires TakerReady(b, r, trades, scale, parts) && trades != [] && MakerReady(b, r, trades[0])
    requires forall t | t in trades :: t.quantity > 0
    requires Matches(b, trades[0]) && Settleable(b, trades[0])
    ensures TakerReady(Settle(b, trades[0]), r, trades[1..], scale, parts)
  {
    hide Floor, Ceil, Improvement, Settle, SettleOrders, SingleBase, Settleable, RawUnits, Covers;
    var t, rest := trades[0], trades[1..];
    var taker := b.orders[r.Key()];
    assert Settle(b, t).orders[r.Key()] == if r.terms.side == 0 then Bought(taker, t) else Sold(taker, t);
    if rest != [] {
      assert rest[0] in trades;
    }
    if r.terms.side == 1 && taker.remaining > t.quantity {
      assert t in trades;
      StillCovered(taker, t, scale, parts);
    }
    var after := Settle(b, t).orders[r.Key()];
    assert r.terms.side == 1 && after.status == LIVE ==> Covers(after.reserved, after.remaining, scale, parts);
    assert Total(rest) <= after.remaining;
  }

  lemma StillCovered(o: Order, t: Trade, scale: nat, parts: Parts)
    requires parts.mantissa > 0 && Covers(o.reserved, o.remaining, scale, parts) && t.quantity < o.remaining
    requires t.raw == RawUnits(t.quantity, scale, parts, false)
    ensures Covers(Sold(o, t).reserved, Sold(o, t).remaining, scale, parts)
  {
    hide RawUnits, Covers;
    DeliveryKeepsCover(o.reserved, o.remaining, t.quantity, scale, parts, parts);
  }

  /** Refunds only reach pool credit that a frame takes back. */
  lemma SettleKeepsFramed(b: Book, r: Request, trades: seq<Trade>, scale: nat, parts: Parts)
    requires Core(b) && Queued(b, r, trades, scale, parts) && trades != [] && Framed(b, r.frames)
    requires Matches(b, trades[0]) && Settleable(b, trades[0])
    ensures Framed(Settle(b, trades[0]), r.frames)
  {
    hide Core, Queued, Settle, Improvement, Surplus, Matches, OrderTerms.Asset, Settleable, SingleBase, Floor, Ceil;
    RefundsAreFramed(b, r, trades, scale, parts);
    var t := trades[0];
    var after := Settle(b, t);
    forall o, c | o in after.wallets && 0 <= c < COLLATERALS && after.wallets[o].balances[Underlying(c)] != 0
      ensures Frame(o, c) in r.frames
    {
      SettleMovesUnderlying(b, t, o, c);
    }
  }

  lemma RefundsAreFramed(b: Book, r: Request, trades: seq<Trade>, scale: nat, parts: Parts)
    requires Core(b) && Queued(b, r, trades, scale, parts) && trades != []
    requires Matches(b, trades[0]) && Settleable(b, trades[0])
    ensures var t := trades[0];
            var buy, sell := b.orders[t.buy], b.orders[t.sell];
            forall c | 0 <= c < COLLATERALS ::
              && (Improvement(buy, t) != 0 && buy.terms.Asset() == Underlying(c) ==> Frame(t.buy.owner, c) in r.frames)
              && (Surplus(sell, t) != 0 && sell.terms.Asset() == Underlying(c) ==> Frame(t.sell.owner, c) in r.frames)
  {
    hide Floor, Ceil, Improvement, Surplus, SingleBase, Balanced, NonNegative, OrdersOk, Caps.ValidateOrder;
    var t := trades[0];
    assert MakerReady(b, r, t);
    TradeAmounts(b, t);
    var buy, sell := b.orders[t.buy], b.orders[t.sell];
    forall c | 0 <= c < COLLATERALS
      ensures buy.terms.Asset() == Underlying(c) ==> buy.terms.funding == 0 && c == QUOTE
      ensures sell.terms.Asset() == Underlying(c) ==> sell.terms.funding == 0 && c == t.base
    {
      FundedAsset(buy.terms, Underlying(c));
      FundedAsset(sell.terms, Underlying(c));
    }
  }

  /** The only pool credit a trade releases: the buyer's improvement and the seller's surplus. */
  lemma SettleMovesUnderlying(b: Book, t: Trade, o: Pubkey, c: nat)
    requires Settleable(b, t) && o in b.wallets && c < COLLATERALS
    ensures var buy, sell := b.orders[t.buy], b.orders[t.sell];
            Settle(b, t).wallets[o].balances[Underlying(c)]
            == b.wallets[o].balances[Underlying(c)]
               + (if o == t.buy.owner && buy.terms.Asset() == Underlying(c) then Improvement(buy, t) else 0)
               + (if o == t.sell.owner && sell.terms.Asset() == Underlying(c) then Surplus(sell, t) else 0)
  {
    hide Floor, Ceil, SingleBase, Improvement, Surplus, SettleOrders, Deliver, FeeOn, Bought, Sold;
    SettleOrdersMovesUnderlying(b, t, o, c);
    var buy, sell := b.orders[t.buy], b.orders[t.sell];
    DeliverLeavesUnderlying(SettleOrders(b, t), t.base, sell.terms.funding, t.sell.owner, buy.terms.recipient,
                            buy.terms.branch, t.raw, FeeOn(t.raw, t.buyerRate, buy.feeCarry), o, c);
    DeliverLeavesUnderlying(DeliverBase(b, t), QUOTE, buy.terms.funding, t.buy.owner, sell.terms.recipient,
                            buy.terms.branch, t.Quote(), FeeOn(t.Quote(), t.sellerRate, sell.feeCarry), o, c);
  }

  lemma SettleOrdersMovesUnderlying(b: Book, t: Trade, o: Pubkey, c: nat)
    requires Settleable(b, t) && o in b.wallets && c < COLLATERALS
    ensures SettleOrders(b, t).wallets[o].balances[Underlying(c)]
            == b.wallets[o].balances[Underlying(c)]
               + (if o == t.buy.owner && b.orders[t.buy].terms.Asset() == Underlying(c)
                  then Improvement(b.orders[t.buy], t) else 0)
  {
    hide Improvement, Bought, Sold, OrderTerms.Asset;
  }

  lemma DeliverLeavesUnderlying(b: Book, c: nat, funding: nat, funder: Pubkey, recipient: Pubkey,
                                branch: nat, amount: int, fee: int, o: Pubkey, u: nat)
    requires c < COLLATERALS && branch < 2 && funder in b.wallets && recipient in b.wallets
    requires o in b.wallets && u < COLLATERALS
    ensures Deliver(b, c, funding, funder, recipient, branch, amount, fee).wallets[o].balances[Underlying(u)]
            == b.wallets[o].balances[Underlying(u)]
  {
  }

  /** The settlement loop never fails, and keeps the books: owed tokens aside, no liability in
      any asset moves by a unit, whoever trades with whom and however they fund it. */
  lemma {:induction false} SettleAllKeeps(f: Flight, r: Request, trades: seq<Trade>, scale: nat, parts: Parts)
    requires Steady(f) && Queued(f.book, r, trades, scale, parts) && Framed(f.book, r.frames)
    ensures var g := SettleAll(f, trades);
            && Steady(g) && TakerReady(g.book, r, [], scale, parts) && Framed(g.book, r.frames)
            && g.book.wallets.Keys == f.book.wallets.Keys && g.book.orders.Keys == f.book.orders.Keys
            && g.book.market == f.book.market && g.book.tokens == f.book.tokens
            && forall a | 0 <= a < ASSETS ::
                 && g.book.ledgers.Liability(a) - f.book.ledgers.Liability(a) == g.minted[a] - f.minted[a]
                 && (!IsClaim(a) ==> g.minted[a] == f.minted[a])
    decreases |trades|
  {
    hide Core, Backed, Bounded, Queued, TakerReady, Framed, Market.Payouts, Settle, SettleMints, Settleable, Matches,
      Ledgers.Liability, SettleOrders, Bought, Sold;
    if trades == [] {
      QueueIsTaker(f.book, r, trades, scale, parts);
    } else {
      NextMatches(f.book, r, trades, scale, parts);
      SettleKeepsBooks(f.book, f.minted, trades[0]);
      SettleKeepsQueue(f.book, r, trades, scale, parts);
      SettleKeepsFramed(f.book, r, trades, scale, parts);
      forall a | 0 <= a < ASSETS
        ensures Settle(f.book, trades[0]).ledgers.Liability(a) - f.book.ledgers.Liability(a)
                == SettleMints(f.book, f.minted, trades[0])[a] - f.minted[a]
        ensures !IsClaim(a) ==> SettleMints(f.book, f.minted, trades[0])[a] == f.minted[a]
      {
        SettleMovesLiability(f.book, f.minted, trades[0], a);
        SettleMintsAt(f.book, f.minted, trades[0], a);
      }
      SettleKeepsKeys(f.book, trades[0]);
      SettleAllKeeps(SettleNext(f, trades[0]), r, trades[1..], scale, parts);
    }
  }

  lemma QueueIsTaker(b: Book, r: Request, trades: seq<Trade>, scale: nat, parts: Parts)
    requires Queued(b, r, trades, scale, parts) && trades == []
    ensures TakerReady(b, r, [], scale, parts)
  {
  }

  lemma SettleKeepsKeys(b: Book, t: Trade)
    requires Settleable(b, t)
    ensures Settle(b, t).orders.Keys == b.orders.Keys
  {
    hide Settle, SettleOrders, Bought, Sold;
  }

  /** A maker's order after its trade. */
  function Traded(r: Request, o: Order, t: Trade): Order
    requires t.quantity <= o.remaining
  {
    if r.terms.side == 0 then Sold(o, t) else Bought(o, t)
  }

  /** Each queued maker fills exactly its own quantity, once; no other maker is touched. */
  lemma {:induction false} SettleAllFillsMakers(f: Flight, r: Request, trades: seq<Trade>, scale: nat, parts: Parts)
    requires Steady(f) && Queued(f.book, r, trades, scale, parts)
    ensures var g := SettleAll(f, trades);
            && (forall t | t in trades ::
                  var k := Maker(r, t);
                  && k in f.book.orders && k in g.book.orders && t.quantity <= f.book.orders[k].remaining
                  && g.book.orders[k] == Traded(r, f.book.orders[k], t))
            && (forall k | k in f.book.orders && k != r.Key() && (forall t | t in trades :: Maker(r, t) != k) ::
                  k in g.book.orders && g.book.orders[k] == f.book.orders[k])
    decreases |trades|
  {
    hide Core, Backed, Bounded, Framed, Market.Payouts, Settle, SettleMints, Settleable, Matches, SettleOrders,
      Bought, Sold, TakerReady, MakerReady;
    if trades != [] {
      var t, rest := trades[0], trades[1..];
      NextMatches(f.book, r, trades, scale, parts);
      SettleKeepsBooks(f.book, f.minted, t);
      SettleKeepsQueue(f.book, r, trades, scale, parts);
      var next := SettleNext(f, t);
      SettleAllFillsMakers(next, r, rest, scale, parts);
      HeadFillsMaker(f.book, r, t);
      var g := SettleAll(f, trades);
      forall u | u in trades
        ensures var k := Maker(r, u);
                && k in f.book.orders && k in g.book.orders && u.quantity <= f.book.orders[k].remaining
                && g.book.orders[k] == Traded(r, f.book.orders[k], u)
      {
        HeadFillsMaker(f.book, r, u);
        if u in rest {
          assert Maker(r, u) != Maker(r, t);
        } else {
          assert u == t;
          assert forall v | v in rest :: Maker(r, v) != Maker(r, t);
        }
      }
    }
  }

  /** A queued maker is not the taker, and settling its trade changes it and the taker alone. */
  lemma HeadFillsMaker(b: Book, r: Request, t: Trade)
    requires MakerReady(b, r, t)
    ensures Maker(r, t) in b.orders && Maker(r, t) != r.Key() && t.quantity <= b.orders[Maker(r, t)].remaining
    ensures Settleable(b, t) ==>
              && Settle(b, t).orders.Keys == b.orders.Keys
              && Settle(b, t).orders[Maker(r, t)] == Traded(r, b.orders[Maker(r, t)], t)
              && forall k | k in b.orders && k != r.Key() && k != Maker(r, t) :: Settle(b, t).orders[k] == b.orders[k]
  {
    hide Settle, SettleOrders, Bought, Sold, Floor, Ceil, Improvement, Surplus;
  }

  /** The taker fills the total of the queue. */
  lemma {:induction false} SettleAllFillsTaker(f: Flight, r: Request, trades: seq<Trade>, scale: nat, parts: Parts)
    requires Steady(f) && Queued(f.book, r, trades, scale, parts)
    ensures r.Key() in f.book.orders && r.Key() in SettleAll(f, trades).book.orders
    ensures var before, after := f.book.orders[r.Key()], SettleAll(f, trades).book.orders[r.Key()];
            && after.terms == before.terms && after.sequence == before.sequence
            && after.remaining == before.remaining - Total(trades)
            && after.filled == before.filled + Total(trades)
            && (before.status == LIVE ==> after.status == if Total(trades) < before.remaining then LIVE else FILLED)
    decreases |trades|
  {
    hide Core, Backed, Bounded, Framed, Market.Payouts, Settle, SettleMints, Settleable, SettleOrders, MakerReady,
      Floor, Ceil;
    if trades == [] {
      LiveRemains(f.book, r.Key());
    } else {
      var t, rest := trades[0], trades[1..];
      NextMatches(f.book, r, trades, scale, parts);
      SettleKeepsBooks(f.book, f.minted, t);
      SettleKeepsQueue(f.book, r, trades, scale, parts);
      HeadFillsTaker(f.book, r, t);
      SettleAllFillsTaker(SettleNext(f, t), r, rest, scale, parts);
      if Settle(f.book, t).orders[r.Key()].status != LIVE {
        assert rest == [];
      }
    }
  }

  lemma LiveRemains(b: Book, k: OrderKey)
    requires Core(b) && k in b.orders
    ensures b.orders[k].status == LIVE ==> b.orders[k].remaining > 0
    ensures b.orders[k].remaining >= 0
  {
    hide Balanced, NonNegative, Caps.ValidateOrder, Ceil;
    assert OrderOk(b.market, k, b.orders[k]);
  }

  lemma HeadFillsTaker(b: Book, r: Request, t: Trade)
    requires MakerReady(b, r, t) && Settleable(b, t) && r.Key() in b.orders
    ensures t.quantity <= b.orders[r.Key()].remaining
    ensures Settle(b, t).orders[r.Key()]
            == if r.terms.side == 0 then Bought(b.orders[r.Key()], t) else Sold(b.orders[r.Key()], t)
  {
    hide Settle, SettleOrders, Bought, Sold, Floor, Ceil, Improvement, Surplus;
  }
}
