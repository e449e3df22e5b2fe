/** The place instruction over the whole deployment: when it is admissible, and the state it
    leaves. Admissibility speaks only of the request and the accounts it presents; none of the
    runtime guards of the settlement appear in it. */
module Exchange {
  import opened Exact
  import opened Rules
  import opened Sums
  import opened Conversion
  import opened State
  import opened Settlement
  import opened InFlight
  import opened Matching
  import opened Chain

  // ------------------------------------------------------------- entry checks

  /** A touched leg must be listed, active, ready, unfrozen, unpaused and inside its band. */
  predicate LegOpen(m: Market, c: nat, live: Live) {
    c < COLLATERALS && Exposable(m, c, live[c])
  }

  predicate Exposable(m: Market, c: nat, leg: LegLive) {
    && m.Tradable(c) && !leg.frozen && !leg.paused
    && WithinBand(m.legs[c - 1].multiplier, leg.multiplier) == Ok(true)
  }

  predicate TermsShape(m: Market, t: OrderTerms) {
    && t.branch < 2 && t.side < 2 && t.funding < 2 && t.tif < 2
    && t.maxFeeBps <= MAX_FEE_BPS && t.recipient != NOBODY
    && t.bases != {} && (forall c | c in t.bases :: 1 <= c <= m.bases)
    && (t.side == 0 || SingleBase(t.bases).Some?)
  }

  predicate FramesPresented(s: Chain, b: Book, r: Request) {
    forall f | f in r.frames ::
      && r.Presented(f.collateral) && f.collateral < COLLATERALS
      && KeyOf(b.market, f) in s.credits && f.owner in r.participants
  }

  /** The checks before the plan is reviewed, in the order they are made. */
  function Entry(s: Chain, id: Pubkey, r: Request): Outcome {
    if id !in s.books then Fail(InvalidAccount) else
    var b := s.books[id];
    var m, t := b.market, r.terms;
    :- Require(0 < |r.participants| <= 2 * (|r.plan.legs| + 1) && |r.makers| == |r.plan.legs| <= MAX_MAKERS
               && |r.frames| <= MAX_MAKERS + 2, ProtocolError.InvalidTerms);
    :- Require(BoundNonce(t.salt).Some? ==> BoundNonce(t.salt).value == t.nonce, ProtocolError.InvalidTerms);
    :- Require(TermsShape(m, t) && (forall c | c in r.touched :: 1 <= c <= m.bases), ProtocolError.InvalidTerms);
    :- Checked(Trading(m.state, s.config.paused, s.now, m.terms.tradingOpen, m.terms.tradingCutoff));
    :- Checked(ValidExpiry(s.now, t.expiry, m.terms.tradingCutoff));
    :- Checked(Guard(s.now, r.plan.deadline, t.expiry, (r.plan.nextSequence, r.plan.makerBps, r.plan.takerBps),
                     (m.sequence[t.branch], s.config.makerBps, s.config.takerBps)));
    :- Require(Distinct(r.makers) && r.Key() !in r.makers && r.Key() !in b.orders, InvalidAccount);
    :- Require(forall c | c in r.touched :: LegOpen(m, c, r.live), LegHalted);
    :- Require(Distinct(r.participants), InvalidAccount);
    :- Require(forall p | p in r.participants :: p in b.wallets && p in s.traders, InvalidAccount);
    :- Require(Distinct(r.frames) && FramesPresented(s, b, r), InvalidAccount);
    :- Require(r.owner in r.participants && r.owner in s.traders, InvalidAccount);
    :- Checked(ValidNonce(t.nonce, s.traders[r.owner]));
    :- Checked(m.terms.caps.ValidateOrder(t.quantity, t.price));
    Require(t.recipient in r.participants, InvalidAccount)
  }

  /** What the taker reserves: a bid its notional, an ask its raw units, rounded up. */
  function ReservedFor(m: Market, r: Request): Rules.Result<u64> {
    if r.terms.side == 0 then m.terms.caps.ValidateOrder(r.terms.quantity, r.terms.price)
    else
      var base := r.terms.Collateral();
      if !(1 <= base <= MAX_BASES) then Err(Rules.InvalidTerms)
      else BaseRaw(r.terms.quantity, m.legs[base - 1].scale, r.live[base].multiplier, true)
  }

  /** What the owner has available in the funding asset once the frames are loaded. */
  function AvailableTo(s: Chain, b: Book, r: Request): int {
    var asset := r.terms.Asset();
    if asset >= ASSETS || r.owner !in b.wallets then 0 else
    if r.terms.funding != 0 then b.wallets[r.owner].balances[asset] else
    var f := Frame(r.owner, r.terms.Collateral());
    if f in r.frames && f.collateral < COLLATERALS && KeyOf(b.market, f) in s.credits
    then s.credits[KeyOf(b.market, f)] else 0
  }

  function Picks(s: Chain, id: Pubkey, r: Request): seq<Pick>
    requires id in s.books && Sized(s.books[id].orders) && |r.makers| == |r.plan.legs|
  {
    Survivors(s.books[id].market, s.books[id].orders, s.traders, s.config, s.now, r, |r.makers|)
  }

  /** No planned maker fails the placement, the survivors trade enough and not too much. */
  predicate Reviewed(s: Chain, id: Pubkey, r: Request)
    requires id in s.books && Sized(s.books[id].orders) && |r.makers| == |r.plan.legs|
  {
    var b := s.books[id];
    && (forall i | 0 <= i < |r.makers| ::
          !Review(b.market, b.orders, s.traders, s.config, s.now, r, r.makers[i], r.plan.legs[i]).Reject?)
    && r.plan.minFill <= TotalPicked(Picks(s, id, r)) <= r.terms.quantity
    && (r.terms.side == 1 ==> r.terms.Collateral() in r.touched)
  }

  /** The shape of each fill: whole steps at crossing prices. */
  predicate WellFilled(m: Market, r: Request, orders: map<OrderKey, Order>, p: Pick) {
    && p.key in orders && m.terms.caps.step > 0 && p.quantity % m.terms.caps.step == 0
    && (if r.terms.side == 0 then orders[p.key].terms.price <= r.terms.price
        else r.terms.price <= orders[p.key].terms.price)
  }

  /** Whether the remainder of the order rests. */
  predicate Rests(s: Chain, id: Pubkey, r: Request)
    requires id in s.books && Sized(s.books[id].orders) && |r.makers| == |r.plan.legs|
  {
    r.terms.tif == 0 && TotalPicked(Picks(s, id, r)) < r.terms.quantity
  }

  function RingOf(m: Market, branch: nat): (entries: seq<Placement>)
    requires branch < 2
    ensures |entries| == RECENT
  {
    m.recent[branch * RECENT..][..RECENT]
  }

  function Ticks(m: Market, price: u128): nat {
    if m.terms.caps.tick > 0 then price / m.terms.caps.tick else 0
  }

  /** Everything before the exposure caps: the request is one the book can settle. */
  ghost predicate Fillable(s: Chain, id: Pubkey, r: Request) {
    && Entry(s, id, r).Done?
    && Sized(s.books[id].orders) && |r.makers| == |r.plan.legs|
    && Reviewed(s, id, r)
    && (forall p | p in Picks(s, id, r) :: WellFilled(s.books[id].market, r, s.books[id].orders, p))
    && ReservedFor(s.books[id].market, r).Ok?
    && ReservedFor(s.books[id].market, r).value <= AvailableTo(s, s.books[id], r)
    && s.books[id].market.sequence[r.terms.branch] < U64_MAX
  }

  lemma EntryFacts(s: Chain, id: Pubkey, r: Request)
    requires Entry(s, id, r).Done?
    ensures id in s.books && |r.makers| == |r.plan.legs| <= MAX_MAKERS && r.terms.branch < 2
    ensures var b := s.books[id];
            && TermsShape(b.market, r.terms)
            && (BoundNonce(r.terms.salt).Some? ==> BoundNonce(r.terms.salt).value == r.terms.nonce)
            && b.market.state == OPEN && s.now < r.terms.expiry <= b.market.terms.tradingCutoff
            && r.plan.nextSequence <= b.market.sequence[r.terms.branch]
            && r.plan.makerBps == s.config.makerBps && r.plan.takerBps == s.config.takerBps
            && Distinct(r.makers) && r.Key() !in r.makers && r.Key() !in b.orders
            && (forall c | c in r.touched :: 1 <= c <= b.market.bases && LegOpen(b.market, c, r.live))
            && (forall p | p in r.participants :: p in b.wallets && p in s.traders)
            && Distinct(r.frames) && FramesPresented(s, b, r)
            && r.owner in r.participants && r.terms.recipient in r.participants
            && s.traders[r.owner] <= r.terms.nonce
            && b.market.terms.caps.ValidateOrder(r.terms.quantity, r.terms.price).Ok? && r.terms.price > 0
  {
    hide WithinBand, BoundNonce, SingleBase, Caps.ValidateOrder;
  }

  // --------------------------------------------------- the survivors are settleable

  /** A touched leg converts every admissible quantity, and delivers for every whole step. */
  lemma TouchedConverts(m: Market, r: Request, c: nat, quantity: u64)
    requires LegsOk(m) && 1 <= c <= m.bases && LegOpen(m, c, r.live) && quantity <= m.terms.caps.maxQuantity
    ensures c <= MAX_BASES && MultiplierParts(r.live[c].multiplier).Ok?
    ensures BaseRaw(quantity, m.legs[c - 1].scale, r.live[c].multiplier, true).Ok?
    ensures BaseRaw(quantity, m.legs[c - 1].scale, r.live[c].multiplier, false) == Ok(RawFor(m, r, c, quantity))
    ensures m.terms.caps.step <= quantity ==> RawFor(m, r, c, quantity) > 0
  {
    hide RawUnits, MultiplierParts, InBand;
    assert LegOk(m, c);
    var leg, caps := m.legs[c - 1], m.terms.caps;
    InBandConverts(caps.maxQuantity, caps.step, leg.scale, leg.multiplier, r.live[c].multiplier, quantity);
    if caps.step <= quantity {
      InBandDelivers(caps.maxQuantity, caps.step, leg.scale, leg.multiplier, r.live[c].multiplier, quantity);
    }
  }

  /** A maker's order of a book, with what its well-formedness gives a trade. */
  lemma MakerFacts(b: Book, key: OrderKey)
    requires BookOk(b) && key in b.orders && b.orders[key].status == LIVE
    ensures var o := b.orders[key];
            && 0 < o.remaining <= o.terms.quantity <= b.market.terms.caps.maxQuantity
            && o.terms.side < 2 && o.terms.branch < 2 && o.terms.funding < 2
            && o.remaining % b.market.terms.caps.step == 0
            && o.terms.price > 0 && b.market.terms.caps.tick > 0 && o.terms.price % b.market.terms.caps.tick == 0
            && Ceil(o.remaining, o.terms.price) <= U64_MAX
            && (o.terms.side == 1 ==> 1 <= o.terms.Collateral() <= b.market.bases)
  {
    hide Ceil, Balanced, NonNegative, Backed, Drained, LegsOk, LifecycleOk, ExposureCapped, UnlistedEmpty, OnlyResting;
    assert OrderOk(b.market, key, b.orders[key]);
    var o := b.orders[key];
    QuoteMono(o.remaining, o.terms.quantity, o.terms.price, o.terms.price);
  }

  lemma BookCaps(b: Book)
    requires BookOk(b)
    ensures var caps := b.market.terms.caps;
            caps.step > 0 && caps.tick > 0 && caps.step * caps.tick >= WAD && caps.minNotional > 0
  {
    hide Balanced, NonNegative, Backed, Drained, LegsOk, LifecycleOk, ExposureCapped, UnlistedEmpty, OnlyResting,
      OrdersOk;
  }

  /** The plan leg a survivor came from. */
  lemma PickTaken(s: Chain, id: Pubkey, r: Request, p: Pick) returns (i: nat)
    requires id in s.books && Sized(s.books[id].orders) && |r.makers| == |r.plan.legs| && Distinct(r.makers)
    requires p in Picks(s, id, r)
    ensures i < |r.makers| && p.key == r.makers[i]
    ensures var b := s.books[id];
            Review(b.market, b.orders, s.traders, s.config, s.now, r, p.key, r.plan.legs[i]) == Take(p.quantity)
  {
    hide Review;
    var b := s.books[id];
    SurvivorsAreReviewed(b.market, b.orders, s.traders, s.config, s.now, r, |r.makers|);
    i :| 0 <= i < |r.makers| && p.key == r.makers[i]
         && Review(b.market, b.orders, s.traders, s.config, s.now, r, r.makers[i], r.plan.legs[i]) == Take(p.quantity);
  }

  /** Every survivor of the review is ready to settle. */
  lemma PickReady(s: Chain, id: Pubkey, r: Request, p: Pick)
    requires Inv(s) && Fillable(s, id, r) && p in Picks(s, id, r)
    ensures p.key in s.books[id].orders
    ensures var b := s.books[id];
            MakerReady(b, r, TradeOf(b.market, s.config, r, b.orders[p.key], p))
  {
    hide Inv, Entry, Picks, Review, LegOpen, ReviewAsk, ReviewBid, RawFor, Caps.ValidateOrder, BookOk, SingleBase,
      BoundNonce, ReservedFor, AvailableTo, WellPlanned, OrderTerms.Collateral, FramesPresented, TermsShape, WellFilled,
      TradeOf, MakerReady, LegsOk, Core;
    EntryFacts(s, id, r);
    InvBook(s, id);
    var b := s.books[id];
    var i := PickTaken(s, id, r, p);
    ReviewTakes(b.market, b.orders, s.traders, s.config, s.now, r, p.key, r.plan.legs[i], p.quantity);
    assert r.makers[i] in r.makers;
    SurvivorReady(s, b, r, p, r.plan.legs[i]);
  }

  lemma InvBook(s: Chain, id: Pubkey)
    requires Inv(s) && id in s.books
    ensures BookOk(s.books[id]) && Anchored(s, s.books[id])
    ensures s.config.makerBps <= MAX_FEE_BPS && s.config.takerBps <= MAX_FEE_BPS
    ensures LegsOk(s.books[id].market) && Core(s.books[id])
  {
    hide Core, Backed, LegsOk, LifecycleOk, PoolsBalanced;
  }

  lemma SurvivorReady(s: Chain, b: Book, r: Request, p: Pick, planned: u64)
    requires BookOk(b) && LegsOk(b.market) && Core(b) && TermsShape(b.market, r.terms) && r.terms.price > 0
    requires s.config.makerBps <= MAX_FEE_BPS && s.config.takerBps <= MAX_FEE_BPS
    requires WellFilled(b.market, r, b.orders, p) && p.key != r.Key()
    requires b.orders[p.key].status == LIVE && WellPlanned(r, planned, b.orders[p.key])
    requires p.quantity == Min(planned, b.orders[p.key].remaining)
    requires b.orders[p.key].terms.recipient in b.wallets && r.terms.recipient in b.wallets
    requires Sized(b.orders)
    requires if r.terms.side == 0 then ReviewAsk(b.market, r, p.key, b.orders[p.key], p.quantity) == Take(p.quantity)
             else ReviewBid(b.market, r, p.key, b.orders[p.key], p.quantity) == Take(p.quantity)
    requires forall c | c in r.touched :: 1 <= c <= b.market.bases && LegOpen(b.market, c, r.live)
    requires r.terms.side == 1 ==> r.terms.Collateral() in r.touched
    ensures MakerReady(b, r, TradeOf(b.market, s.config, r, b.orders[p.key], p))
  {
    hide LegOpen, RawFor, Floor, Ceil, Caps.ValidateOrder, BookOk, SingleBase, LegsOk, Core, OrderTerms.Collateral,
      Fill, ReviewAsk, ReviewBid, Surplus, Improvement;
    var o := b.orders[p.key];
    MakerFacts(b, p.key);
    BookCaps(b);
    NoFillRoundsToZero(b.market.terms.caps, p.quantity, o.terms.price);
    var t := TradeOf(b.market, s.config, r, o, p);
    if r.terms.side == 0 {
      AskRefund(b.market, r, p.key, o, p.quantity, t);
    } else {
      BidRefund(b.market, r, p.key, o, p.quantity, t);
      MultipleAtLeastStep(p.quantity, b.market.terms.caps.step);
      TouchedConverts(b.market, r, t.base, p.quantity);
    }
  }

  lemma MultipleAtLeastStep(quantity: u64, step: u64)
    requires step > 0 && quantity > 0 && quantity % step == 0
    ensures step <= quantity
  {
    MultipleAtLeast(quantity, step);
  }

  lemma AskRefund(m: Market, r: Request, key: OrderKey, o: Order, quantity: u64, t: Trade)
    requires ReviewAsk(m, r, key, o, quantity) == Take(quantity)
    requires t.base == o.terms.Collateral() && t.raw == RawFor(m, r, t.base, quantity) && t.quantity == quantity
    ensures 0 < t.raw <= o.reserved
    ensures Surplus(o, t) > 0 && o.terms.funding == 0 ==> Frame(key.owner, t.base) in r.frames
  {
    hide RawUnits, MultiplierParts, SingleBase;
  }

  lemma BidRefund(m: Market, r: Request, key: OrderKey, o: Order, quantity: u64, t: Trade)
    requires 0 <= o.remaining <= U64_MAX && quantity <= o.remaining
    requires ReviewBid(m, r, key, o, quantity) == Take(quantity)
    requires m.terms.caps.step > 0 && quantity > 0 && quantity % m.terms.caps.step == 0
    requires 0 < r.terms.price <= o.terms.price && Ceil(o.remaining, o.terms.price) <= U64_MAX
    requires t.quantity == quantity && t.price == o.terms.price
    ensures Improvement(o, t) > 0 && o.terms.funding == 0 ==> Frame(key.owner, QUOTE) in r.frames
  {
    hide Floor, Ceil, Fill;
    QuoteMono(quantity, o.remaining, r.terms.price, o.terms.price);
    FillSucceeds(quantity, m.terms.caps.step, o.remaining, quantity, o.terms.price, r.terms.price, true);
  }

  // ------------------------------------------------------ what is presented exists

  /** Presented frames load distinct credit accounts of participants in listed collaterals. */
  lemma FramesLoad(s: Chain, id: Pubkey, r: Request)
    requires Entry(s, id, r).Done?
    ensures id in s.books && FramesOk(s.credits, s.books[id], r.frames)
  {
    hide Entry, LegOpen, SingleBase, BoundNonce, Caps.ValidateOrder, KeyOf;
    EntryFacts(s, id, r);
  }

  /** The taker's terms are those of a well-formed order in a listed collateral. */
  lemma TakerTerms(s: Chain, id: Pubkey, r: Request)
    requires Entry(s, id, r).Done?
    ensures id in s.books && OrderTermsOk(s.books[id].market, r.terms)
    ensures r.terms.Asset() < ASSETS && r.terms.Collateral() < COLLATERALS
  {
    hide Entry, LegOpen, SingleBase, BoundNonce, Caps.ValidateOrder, FramesPresented;
    EntryFacts(s, id, r);
    if r.terms.side == 1 {
      assert SingleBase(r.terms.bases).value in r.terms.bases;
    }
  }
}
