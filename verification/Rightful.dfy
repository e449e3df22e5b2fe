/** What a successful placement was allowed to do, in the terms of the request, the clock and the orders
    themselves: when it may happen, and with whom it trades. */
module Rightful {
  import opened Exact
  import opened Rules
  import opened Conversion
  import opened State
  import opened Settlement
  import opened InFlight
  import opened Matching
  import opened Chain
  import opened Exchange
  import opened Placing
  import opened Completion
  import H = PlaceHandler

  /** The issuer's multiplier is within a quarter of the one its leg was listed at, compared as the
      numbers their bits denote. */
  ghost predicate NearListing(listing: u64, current: u64) {
    var l, c := Binary64(listing), Binary64(current);
    && l.num > 0 && l.den > 0 && c.num > 0 && c.den > 0
    && 4 * (c.num * l.den) <= 5 * (l.num * c.den) && 4 * (l.num * c.den) <= 5 * (c.num * l.den)
  }

  lemma BandIsNear(listing: u64, current: u64)
    requires WithinBand(listing, current) == Ok(true)
    ensures NearListing(listing, current)
  {
    BandIsExact(listing, current);
    DecodingIsExact(listing);
    DecodingIsExact(current);
  }

  /** The market trades, the plan is in time and at the rates in force, and the order is fresh, valid and
      unexpired; every leg it touches is listed, active, unpaused, unfrozen and near its listing. */
  lemma PlacesInTime(s: Chain, id: Pubkey, r: Request)
    requires Entry(s, id, r).Done?
    ensures id in s.books && r.owner in s.traders
    ensures var m, t := s.books[id].market, r.terms;
            && m.state == OPEN && !s.config.paused && m.terms.tradingOpen <= s.now < m.terms.tradingCutoff
            && s.now < r.plan.deadline <= t.expiry <= m.terms.tradingCutoff
            && t.branch < 2 && r.plan.nextSequence <= m.sequence[t.branch]
            && r.plan.makerBps == s.config.makerBps && r.plan.takerBps == s.config.takerBps
            && t.nonce >= s.traders[r.owner] && r.Key() !in s.books[id].orders
            && t.quantity > 0 && t.price > 0 && t.quantity <= m.terms.caps.maxQuantity
            && m.terms.caps.step > 0 && t.quantity % m.terms.caps.step == 0
            && m.terms.caps.tick > 0 && t.price % m.terms.caps.tick == 0
            && m.terms.caps.minNotional <= Ceil(t.quantity, t.price) <= m.terms.caps.maxOrder
  {
    hide LegOpen, SingleBase, BoundNonce, FramesPresented, Ceil;
  }

  lemma TouchesOpenLegs(s: Chain, id: Pubkey, r: Request, c: nat)
    requires Entry(s, id, r).Done? && c in r.touched
    ensures id in s.books && 1 <= c <= MAX_BASES
    ensures var m := s.books[id].market;
            && c <= m.bases && m.legs[c - 1].active && !r.live[c].paused && !r.live[c].frozen
            && NearListing(m.legs[c - 1].multiplier, r.live[c].multiplier)
  {
    hide Entry, NearListing, BoundNonce, FramesPresented, TermsShape, SingleBase, Caps.ValidateOrder, WithinBand;
    EntryFacts(s, id, r);
    BandIsNear(s.books[id].market.legs[c - 1].multiplier, r.live[c].multiplier);
  }

  /** A leg may be touched exactly when it is listed, active and its custody and both claims are set up, the
      issuer has neither paused nor frozen it, and its multiplier is one the code reads, near its listing. */
  lemma LegMayOpen(m: Market, c: nat, live: Live)
    ensures LegOpen(m, c, live) <==>
              && 1 <= c <= m.bases && m.legs[c - 1].active
              && Underlying(c) in m.initialized && Claim(c, 0) in m.initialized && Claim(c, 1) in m.initialized
              && !live[c].paused && !live[c].frozen
              && MultiplierParts(m.legs[c - 1].multiplier).Ok? && MultiplierParts(live[c].multiplier).Ok?
              && NearListing(m.legs[c - 1].multiplier, live[c].multiplier)
  {
    hide MultiplierParts, InBand;
    if 1 <= c <= m.bases && MultiplierParts(m.legs[c - 1].multiplier).Ok? && MultiplierParts(live[c].multiplier).Ok? {
      BandIsExact(m.legs[c - 1].multiplier, live[c].multiplier);
      DecodingIsExact(m.legs[c - 1].multiplier);
      DecodingIsExact(live[c].multiplier);
    }
  }

  /** What the order sets aside: a bid its value at its limit rounded up, an ask what its whole quantity converts
      to at the issuer's multiplier, rounded up once; its owner had it to spend. */
  lemma ReservesExactly(s: Chain, id: Pubkey, r: Request)
    requires Fillable(s, id, r)
    ensures id in s.books && r.terms.side < 2
    ensures r.terms.side == 0 ==> TakerOrder(s, id, r).reserved == Ceil(r.terms.quantity, r.terms.price)
    ensures r.terms.side == 1 ==>
              exists i: nat | i < MAX_BASES ::
                && r.terms.bases == {i + 1} && MultiplierParts(r.live[i + 1].multiplier).Ok?
                && RoundsUp(TakerOrder(s, id, r).reserved, r.terms.quantity * s.books[id].market.legs[i].scale,
                            Binary64(r.live[i + 1].multiplier))
    ensures TakerOrder(s, id, r).reserved <= AvailableTo(s, s.books[id], r)
  {
    hide Fillable, Entry, Reviewed, AvailableTo, WellFilled, RoundsUp, MultiplierParts, RawUnits, Ceil,
      Caps.ValidateOrder;
    FillableFacts(s, id, r);
    EntryFacts(s, id, r);
    EntrySides(s, id, r);
    var m, t := s.books[id].market, r.terms;
    if t.side == 1 {
      var c := t.Collateral();
      SellerDelivers(t);
      RawIsExact(r.live[c].multiplier, t.quantity, m.legs[c - 1].scale);
      assert t.bases == {(c - 1) + 1};
    } else {
      BidReserves(m.terms.caps, t.quantity, t.price);
    }
  }

  lemma BidReserves(caps: Caps, quantity: u64, price: u128)
    requires caps.ValidateOrder(quantity, price).Ok?
    ensures caps.ValidateOrder(quantity, price).value == Ceil(quantity, price)
  {
  }

  /** A maker the taker may trade with: open, in time, its nonce valid, its grant alive, on the other side
      of the same branch, in the book when the plan was made, and resting. */
  ghost predicate MayFill(s: Chain, id: Pubkey, r: Request, key: OrderKey)
    requires id in s.books
  {
    && key in s.books[id].orders && key.owner in s.traders
    && var o := s.books[id].orders[key];
    && key in r.makers && key != r.Key() && o.status == LIVE && o.terms.tif == 0
    && o.terms.branch == r.terms.branch
    && ((r.terms.side == 0 && o.terms.side == 1) || (r.terms.side == 1 && o.terms.side == 0))
    && s.now < o.terms.expiry && o.terms.nonce >= s.traders[key.owner] && key !in r.lapsed
    && o.sequence < r.plan.nextSequence
    && s.config.makerBps <= o.terms.maxFeeBps && s.config.takerBps <= r.terms.maxFeeBps
  }

  /** Its price is the maker's, no worse to the taker than the taker's limit; its leg is the one the seller
      delivers, and the buyer accepts it; its parties pay the rates of their roles. */
  ghost predicate FairTrade(s: Chain, id: Pubkey, r: Request, t: Trade, key: OrderKey)
    requires id in s.books && key in s.books[id].orders
  {
    var o, m := s.books[id].orders[key], s.books[id].market;
    && t.price == o.terms.price
    && (if r.terms.side == 0 then
          && t.price <= r.terms.price && t.buy == r.Key() && t.sell == key
          && o.terms.bases == {t.base} && t.base in r.terms.bases
          && t.buyerRate == s.config.takerBps && t.sellerRate == s.config.makerBps
        else
          && t.price >= r.terms.price && t.buy == key && t.sell == r.Key()
          && r.terms.bases == {t.base} && t.base in o.terms.bases
          && t.buyerRate == s.config.makerBps && t.sellerRate == s.config.takerBps)
    && 0 < t.quantity <= o.remaining && m.terms.caps.step > 0 && t.quantity % m.terms.caps.step == 0
    && 1 <= t.base <= MAX_BASES && t.raw > 0 && t.quantity <= U64_MAX
    && BaseRaw(t.quantity, m.legs[t.base - 1].scale, r.live[t.base].multiplier, false) == Ok(t.raw)
    && t.base in r.touched
  }

  lemma SellerDelivers(t: OrderTerms)
    requires t.side == 1 && 1 <= t.Collateral() <= MAX_BASES
    ensures t.bases == {t.Collateral()}
  {
  }

  /** A reviewed maker ask converts to what its trade delivers. */
  lemma AskConverts(m: Market, config: Config, r: Request, o: Order, pick: Pick)
    requires r.terms.side == 0 && ReviewAsk(m, r, pick.key, o, pick.quantity) == Take(pick.quantity)
    ensures var t := TradeOf(m, config, r, o, pick);
            && t.base == o.terms.Collateral() && t.base in r.touched && 1 <= t.base <= MAX_BASES && t.raw > 0
            && BaseRaw(pick.quantity, m.legs[t.base - 1].scale, r.live[t.base].multiplier, false) == Ok(t.raw)
  {
    hide RawUnits, MultiplierParts, OrderTerms.Collateral;
  }

  /** So does what a selling taker delivers. */
  lemma TakerConverts(m: Market, config: Config, r: Request, o: Order, pick: Pick)
    requires r.terms.side == 1 && r.terms.Collateral() in r.touched && LegsOk(m)
    requires forall c | c in r.touched :: 1 <= c <= m.bases && LegOpen(m, c, r.live)
    requires m.terms.caps.step <= pick.quantity <= m.terms.caps.maxQuantity
    ensures var t := TradeOf(m, config, r, o, pick);
            && t.base == r.terms.Collateral() && t.base in r.touched && 1 <= t.base <= MAX_BASES && t.raw > 0
            && BaseRaw(pick.quantity, m.legs[t.base - 1].scale, r.live[t.base].multiplier, false) == Ok(t.raw)
  {
    hide RawFor, LegsOk, LegOpen, OrderTerms.Collateral, BaseRaw;
    TouchedConverts(m, r, r.terms.Collateral(), pick.quantity);
  }

  /** What the review of a pick established, for its trade. */
  lemma TradeIsFair(s: Chain, id: Pubkey, r: Request, pick: Pick, planned: u64)
    requires id in s.books && pick.key in s.books[id].orders
    requires var b := s.books[id];
             var t := TradeOf(b.market, s.config, r, b.orders[pick.key], pick);
             && MakerReady(b, r, t) && WellPlanned(r, planned, b.orders[pick.key])
             && t.base in r.touched && 1 <= t.base <= MAX_BASES
             && BaseRaw(pick.quantity, b.market.legs[t.base - 1].scale, r.live[t.base].multiplier, false) == Ok(t.raw)
    requires r.terms.side < 2
    ensures var t := TradeOf(s.books[id].market, s.config, r, s.books[id].orders[pick.key], pick);
            (if r.terms.side == 0 then t.sell else t.buy) == pick.key && FairTrade(s, id, r, t, pick.key)
  {
    hide BaseRaw, RawFor, OrderTerms.Collateral, Floor, Surplus, Improvement;
    var o := s.books[id].orders[pick.key];
    SellerDelivers(if r.terms.side == 0 then o.terms else r.terms);
  }

  lemma ReviewedMayFill(s: Chain, id: Pubkey, r: Request, key: OrderKey, planned: u64, quantity: u64)
    requires Entry(s, id, r).Done? && id in s.books && Sized(s.books[id].orders) && key in r.makers && key != r.Key()
    requires Review(s.books[id].market, s.books[id].orders, s.traders, s.config, s.now, r, key, planned)
             == Take(quantity)
    requires r.terms.side < 2 && key in s.books[id].orders && s.books[id].orders[key].terms.side < 2
    ensures MayFill(s, id, r, key) && WellPlanned(r, planned, s.books[id].orders[key])
  {
    hide Entry, Review, ReviewAsk, ReviewBid, OrderTerms.Accepts, OrderTerms.Collateral;
    ReviewTakes(s.books[id].market, s.books[id].orders, s.traders, s.config, s.now, r, key, planned, quantity);
  }

  /** Every trade of a placement is with a maker it may trade with, on fair terms. */
  lemma TradesAreRightful(s: Chain, id: Pubkey, r: Request, i: nat)
    requires Inv(s) && Fillable(s, id, r) && i < |Trades(s, id, r)|
    ensures var t := Trades(s, id, r)[i];
            var key := if r.terms.side == 0 then t.sell else t.buy;
            MayFill(s, id, r, key) && FairTrade(s, id, r, t, key)
  {
    hide Inv, Entry, Review, Survivors, ReservedFor, AvailableTo, MayFill, FairTrade, WellFilled, TradeOf, Reviewed;
    FillableFacts(s, id, r);
    var pick := Picks(s, id, r)[i];
    assert pick in Picks(s, id, r);
    PickIsRightful(s, id, r, pick);
  }

  lemma PickIsRightful(s: Chain, id: Pubkey, r: Request, pick: Pick)
    requires Inv(s) && Fillable(s, id, r) && pick in Picks(s, id, r)
    ensures pick.key in s.books[id].orders
    ensures var t := TradeOf(s.books[id].market, s.config, r, s.books[id].orders[pick.key], pick);
            var key := if r.terms.side == 0 then t.sell else t.buy;
            MayFill(s, id, r, key) && FairTrade(s, id, r, t, key)
  {
    hide Inv, Entry, Review, Survivors, LegOpen, ReservedFor, AvailableTo, FramesPresented, BoundNonce,
      Caps.ValidateOrder, ReviewAsk, ReviewBid, TotalPicked, MayFill, FairTrade, WellFilled, TradeOf, BookOk, LegsOk,
      WellPlanned, SingleBase, OrderTerms.Collateral, MakerReady, BaseRaw, Picks, TermsShape;
    EntryFacts(s, id, r);
    EntrySides(s, id, r);
    InvBook(s, id);
    var b := s.books[id];
    var i := PickTaken(s, id, r, pick);
    PickReady(s, id, r, pick);
    PickParts(b, s.config, r, pick);
    ReviewTakes(b.market, b.orders, s.traders, s.config, s.now, r, pick.key, r.plan.legs[i], pick.quantity);
    MakerFacts(b, pick.key);
    assert r.makers[i] in r.makers;
    ReviewedMayFill(s, id, r, pick.key, r.plan.legs[i], pick.quantity);
    if r.terms.side == 0 {
      AskConverts(b.market, s.config, r, b.orders[pick.key], pick);
    } else {
      TakerConverts(b.market, s.config, r, b.orders[pick.key], pick);
    }
    TradeIsFair(s, id, r, pick, r.plan.legs[i]);
  }

  lemma EntrySides(s: Chain, id: Pubkey, r: Request)
    requires Entry(s, id, r).Done?
    ensures r.terms.side < 2 && r.terms.tif < 2
  {
    hide LegOpen, SingleBase, BoundNonce, FramesPresented, Caps.ValidateOrder;
  }

  lemma PickParts(b: Book, config: Config, r: Request, pick: Pick)
    requires pick.key in b.orders && MakerReady(b, r, TradeOf(b.market, config, r, b.orders[pick.key], pick))
    requires BookOk(b)
    ensures b.market.terms.caps.step <= pick.quantity <= b.orders[pick.key].remaining
    ensures b.orders[pick.key].status == LIVE && pick.key != r.Key()
  {
    hide BookOk, RawFor, Floor, Surplus, Improvement, OrderTerms.Collateral;
    MultipleAtLeast(pick.quantity, b.market.terms.caps.step);
  }

  // ----------------------------------------------------------------- how it ends

  /** How a placement leaves its own order: filled, open for the rest if it may rest, cancelled for the rest
      if it may not; never by less than its plan demands, never for more than it asked. */
  lemma TakerEnds(s: Chain, id: Pubkey, r: Request)
    requires Inv(s) && Fillable(s, id, r)
    ensures Ticks(s.books[id].market, r.terms.price) <= U64_MAX && r.Key() in Placed(s, id, r).books[id].orders
    ensures var o := Placed(s, id, r).books[id].orders[r.Key()];
            && r.plan.minFill <= o.filled <= r.terms.quantity
            && o.status == (if o.filled == r.terms.quantity then FILLED else if r.terms.tif == 0 then LIVE
               else CANCELLED)
            && o.remaining == (if o.status == LIVE then r.terms.quantity - o.filled else 0)
  {
    hide Inv, Fillable, Ticks, Ended, Trades, Placed, Opened, Entered, Start, SettleAll, Steady, Queued, Framed,
      OrderTerms.Asset, Picks, TotalPicked, Total;
    FillableFacts(s, id, r);
    TicksRecord(s, id, r);
    PlacedOrders(s, id, r);
    PlacementFills(s, id, r);
    StartReady(s, id, r);
    H.TakerStarts(s, id, r);
    TotalOfTrades(s, id, r);
    H.TakerAfter(Start(s, id, r), r, Trades(s, id, r), ScaleOf(s.books[id].market, r), PartsOf(r));
    SettleAllFillsTaker(Start(s, id, r), r, Trades(s, id, r), ScaleOf(s.books[id].market, r), PartsOf(r));
    TakerStartsEmpty(s, id, r);
    EntrySides(s, id, r);
  }
}
