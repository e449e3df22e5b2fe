/** A plan made on the book as it is, placed before anything changes, is accepted and filled as
    planned: the planner, the instruction and the program are one matching rule. */
module Acceptance {
  import opened Exact
  import opened Rules
  import opened Sums
  import opened Conversion
  import opened State
  import opened Settlement
  import opened InFlight
  import opened Matching
  import opened Chain
  import opened Exchange
  import opened Placing
  import opened Completion
  import opened Concurrency
  import H = PlaceHandler
  import A = Accounts
  import E = Exposure
  import P = Planner
  import W = Matchmaking
  import L = Priority
  import I = Instruction

  // ---------------------------------------------------- what the planner has to see

  /** A candidate is the book's order: open, with that much remaining, its nonce valid, its grant not
      lapsed. */
  ghost predicate SeesCandidate(s: Chain, id: Pubkey, lapsed: set<OrderKey>, c: P.Candidate)
    requires id in s.books
  {
    var b, key := s.books[id], I.Key(c.order);
    && key in b.orders && key.owner in s.traders && key !in lapsed
    && var o := b.orders[key];
    && o.status == LIVE && o.terms == c.order.terms && o.remaining == c.remaining && o.sequence == c.sequence
    && (o.terms.side == 1 ==> c.reserved == Some(o.reserved))
    && s.traders[key.owner] <= o.terms.nonce
  }

  /** The planner's input is the book, its fees and its legs' live state. */
  ghost predicate Sees(s: Chain, id: Pubkey, input: P.Input, live: Live, lapsed: set<OrderKey>) {
    && id in s.books && input.order.market == id && 0 <= input.now <= s.now && input.order.terms.branch < 2
    && var m := s.books[id].market;
    && input.step == m.terms.caps.step && input.nextSequence == m.sequence[input.order.terms.branch]
    && input.makerBps == s.config.makerBps && input.takerBps == s.config.takerBps
    && input.legs.Some?
    && (forall c | c in input.legs.value ::
          1 <= c <= MAX_BASES && input.legs.value[c]
            == P.LegState(m.legs[c - 1].scale, live[c].multiplier, LegOpen(m, c, live)))
    && (forall c | c in input.candidates :: SeesCandidate(s, id, lapsed, c))
  }

  /** What is asked of the taker alone: in time, in an open market, with accounts, a fresh order, a
      valid nonce, an order within the market's limits, and the funds. */
  ghost predicate MayPlace(s: Chain, id: Pubkey, r: Request)
    requires id in s.books
  {
    var b, t := s.books[id], r.terms;
    && s.now < r.plan.deadline
    && b.market.state == OPEN && !s.config.paused
    && b.market.terms.tradingOpen <= s.now < b.market.terms.tradingCutoff
    && t.expiry <= b.market.terms.tradingCutoff
    && t.recipient != NOBODY && (forall c | c in t.bases :: c <= b.market.bases)
    && r.Key() !in b.orders
    && r.owner in b.wallets && r.owner in s.traders && t.recipient in b.wallets && t.recipient in s.traders
    && s.traders[r.owner] <= t.nonce && b.market.terms.caps.ValidateOrder(t.quantity, t.price).Ok?
    && (t.funding == 0 && t.Collateral() < COLLATERALS
        ==> CreditKey(b.market.mints[t.Collateral()], r.owner) in s.credits)
    && ReservedFor(b.market, r).Ok? && ReservedFor(b.market, r).value <= AvailableTo(s, b, r)
  }

  /** The first n candidates offer no more than the open notional of any orders they are among. */
  lemma {:induction false} OffersAreOpen(orders: map<OrderKey, Order>, input: P.Input, n: nat)
    requires n <= |input.candidates| && forall k | k in orders :: orders[k].openNotional >= 0
    requires forall i | 0 <= i < n :: I.Key(input.candidates[i].order) in orders
               && P.Offer()(input.candidates[i]) == orders[I.Key(input.candidates[i].order)].openNotional
    requires forall i, j | 0 <= i < j < n :: I.Key(input.candidates[i].order) != I.Key(input.candidates[j].order)
    ensures P.Total(P.EligibleOf(input, n), P.Offer()) <= SumBy(orders, E.OpenNotional())
    decreases n
  {
    hide P.Eligible, P.Offer;
    if n == 0 {
      SumNonNegative(orders, E.OpenNotional());
    } else {
      var c := input.candidates[n - 1];
      var rest := orders - {I.Key(c.order)};
      OffersAreOpen(rest, input, n - 1);
      SumRemove(orders, I.Key(c.order), E.OpenNotional());
      if P.Eligible(input, c) {
        P.OneMoreTotal(P.EligibleOf(input, n - 1), c, P.Offer());
      } else {
        assert P.EligibleOf(input, n) == P.EligibleOf(input, n - 1);
      }
    }
  }

  /** On a market's own book the makers' offers fit 64 bits together: they are part of its exposure. */
  lemma OffersFit(s: Chain, id: Pubkey, input: P.Input, live: Live, lapsed: set<OrderKey>)
    requires Inv(s) && Sees(s, id, input, live, lapsed) && input.step > 0 && P.AllReported(input)
    ensures P.Offered(input) <= U64_MAX
  {
    hide Inv, P.Parses, LegOpen, BookOk, Core, Ceil, SumBy, P.EligibleOf, P.Total, BoundNonce;
    InvBook(s, id);
    var b := s.books[id];
    E.ExposureIsOrders(b);
    forall i | 0 <= i < |input.candidates|
      ensures I.Key(input.candidates[i].order) in b.orders
      ensures P.Offer()(input.candidates[i]) == b.orders[I.Key(input.candidates[i].order)].openNotional
    {
      assert input.candidates[i] in input.candidates;
      OpenIsOffered(b, I.Key(input.candidates[i].order));
    }
    forall i, j | 0 <= i < j < |input.candidates|
      ensures I.Key(input.candidates[i].order) != I.Key(input.candidates[j].order)
    {
      assert P.Reported(input, input.candidates[i]) && P.Reported(input, input.candidates[j]);
    }
    OffersAreOpen(b.orders, input, |input.candidates|);
  }

  lemma OpenIsOffered(b: Book, key: OrderKey)
    requires BookOk(b) && key in b.orders && b.orders[key].status == LIVE
    ensures var o := b.orders[key]; 0 <= o.remaining && o.openNotional == Ceil(o.remaining, o.terms.price)
  {
    hide Ceil, Balanced, NonNegative, Backed, Drained, LegsOk, LifecycleOk, ExposureCapped, UnlistedEmpty, OnlyResting,
      OrderTermsOk;
    assert OrderOk(b.market, key, b.orders[key]);
  }

  /** Whatever the planner plans on a market's book, the check before signing accepts. */
  lemma PlanReads(s: Chain, id: Pubkey, input: P.Input, queue: seq<P.Candidate>, live: Live, lapsed: set<OrderKey>)
    requires Inv(s) && Sees(s, id, input, live, lapsed)
    requires L.Planning(input, queue) && P.AllReported(input) && P.Queue(input, queue) && W.PlanOf(input, queue).Answer?
    ensures L.Reads(W.PlanOf(input, queue).value, input.order)
  {
    hide Inv, P.Parses, P.AllReported, P.Queue, P.Reported, P.Offered, W.PlanOf, L.Reads, LegOpen, SeesCandidate,
      P.Ranked;
    OffersFit(s, id, input, live, lapsed);
    L.PlansAreRead(input, queue);
  }

  /** The market's book is planned on, and the instruction is the plan's. */
  ghost predicate Setting(s: Chain, id: Pubkey, input: P.Input, queue: seq<P.Candidate>, r: Request) {
    && Inv(s) && A.Hosted(s) && Sees(s, id, input, r.live, r.lapsed)
    && L.Planning(input, queue) && P.AllReported(input) && P.Queue(input, queue) && W.PlanOf(input, queue).Answer?
    && (PlanReads(s, id, input, queue, r.live, r.lapsed);
        I.Presents(r, input.order, W.PlanOf(input, queue).value))
  }

  /** The same, with what is known of the plan. */
  ghost predicate Prepared(s: Chain, id: Pubkey, input: P.Input, queue: seq<P.Candidate>, r: Request) {
    && Inv(s) && A.Hosted(s) && Sees(s, id, input, r.live, r.lapsed)
    && L.Planning(input, queue) && P.AllReported(input) && P.Queue(input, queue)
    && W.PlanOf(input, queue).Answer? && L.Reads(W.PlanOf(input, queue).value, input.order)
    && I.Presents(r, input.order, W.PlanOf(input, queue).value)
  }

  lemma SettingReads(s: Chain, id: Pubkey, input: P.Input, queue: seq<P.Candidate>, r: Request)
    requires Setting(s, id, input, queue, r)
    ensures Prepared(s, id, input, queue, r)
  {
    hide Inv, A.Hosted, Sees, L.Planning, P.AllReported, P.Queue, W.PlanOf, L.Reads, I.Presents;
    PlanReads(s, id, input, queue, r.live, r.lapsed);
  }

  // ----------------------------------------------------------- one planned maker

  /** Everything known of one leg: the candidate, the plan's entry, the book's order, the request's. */
  ghost predicate Leg(s: Chain, id: Pubkey, input: P.Input, p: P.AtomicPlan, r: Request, i: nat, c: P.Candidate)
    requires input.step > 0 && id in s.books
  {
    && i < |p.makers| == |p.quantities| == |p.expectedRemaining| == |r.makers| == |r.plan.legs|
    && p.makers[i] == c.order && r.makers[i] == I.Key(c.order) && r.plan.legs[i] == p.quantities[i]
    && p.expectedRemaining[i] == c.remaining
    && c in input.candidates && SeesCandidate(s, id, r.lapsed, c) && P.Reported(input, c) && P.Eligible(input, c)
    && 0 < p.quantities[i] <= c.remaining <= U64_MAX && p.quantities[i] % input.step == 0
    && 0 < Floor(p.quantities[i], c.order.terms.price) <= U64_MAX
    && W.DeliveryOf(input, c, p.quantities[i]).Delivers?
    && (p.surplus.Some? ==> |p.surplus.value| == |p.makers|
                            && p.surplus.value[i] == W.DeliveryOf(input, c, p.quantities[i]).refund)
    && p.deadline <= c.order.terms.expiry
  }

  lemma LegKnown(s: Chain, id: Pubkey, input: P.Input, queue: seq<P.Candidate>, r: Request, i: nat)
      returns (c: P.Candidate)
    requires Prepared(s, id, input, queue, r) && i < |r.makers|
    ensures input.step > 0 && Leg(s, id, input, W.PlanOf(input, queue).value, r, i, c)
  {
    hide Inv, P.Parses, Floor, L.Filled, L.Cost, OrderTerms.Collateral, OrderTerms.Accepts, W.DeliveryOf, L.Kept,
      P.Eligible, W.Walked, SeesCandidate, L.LegReads, P.Queue, LegOpen, L.LegsRanked, L.Reads, P.Reported, I.Takes,
      I.Touched, I.Framed;
    L.WalkIsSound(input, queue, |queue|);
    assert queue[..|queue|] == queue;
    var w := W.Walked(input, queue, |queue|).value;
    assert w.legs[i] in w.legs;
    c := w.legs[i].candidate;
    P.QueueHolds(input, queue, c);
  }

  /** The request's terms and what it presents. */
  lemma RequestFacts(s: Chain, id: Pubkey, input: P.Input, queue: seq<P.Candidate>, r: Request)
    requires Prepared(s, id, input, queue, r)
    ensures r.terms == input.order.terms && r.owner == input.order.owner && P.Parses(input.order) && input.step > 0
    ensures var p := W.PlanOf(input, queue).value;
            && |r.makers| == |p.makers| == |r.plan.legs| == |p.quantities| == |p.expectedRemaining| <= MAX_MAKERS
            && r.plan.legs == p.quantities
            && r.plan.nextSequence == input.nextSequence && r.plan.makerBps == input.makerBps
            && r.plan.takerBps == input.takerBps
            && (|r.makers| > 0 ==> input.takerBps <= r.terms.maxFeeBps) && r.plan.deadline == p.deadline
            && r.plan.minFill == p.minFill && r.plan.deadline <= r.terms.expiry
  {
    hide Inv, P.Parses, L.LegReads, P.Queue, LegOpen, I.Takes, I.Touched, I.Framed, Sees, P.AllReported, W.Walked,
      L.LegsRead;
  }

  /** Its owner and recipient take part, and the leg it trades is touched. */
  lemma LegPresented(s: Chain, id: Pubkey, input: P.Input, queue: seq<P.Candidate>, r: Request, i: nat, c: P.Candidate)
    requires Prepared(s, id, input, queue, r) && input.step > 0
             && Leg(s, id, input, W.PlanOf(input, queue).value, r, i, c)
    ensures c.order.owner in r.participants && c.order.terms.recipient in r.participants
    ensures r.terms.side == 0 ==> c.order.terms.Collateral() in r.touched
    ensures r.terms.side == 1 ==> r.terms.Collateral() in r.touched
    ensures c.order.terms.funding == 0 && I.Returns(W.PlanOf(input, queue).value, i)
            ==> Frame(c.order.owner, c.order.terms.Collateral()) in r.frames
  {
    hide Inv, P.Parses, Floor, OrderTerms.Collateral, OrderTerms.Accepts, W.DeliveryOf, P.Eligible, W.PlanOf, I.Returns,
      SeesCandidate, L.LegReads, P.Queue, LegOpen, P.Reported, Sees, P.AllReported;
    var p := W.PlanOf(input, queue).value;
    assert I.Takes(input.order, p.makers, |p.makers|, c.order.owner)
           && I.Takes(input.order, p.makers, |p.makers|, c.order.terms.recipient);
    assert c.order.terms.funding == 0 && I.Returns(p, i)
           ==> I.Framed(input.order, p, |p.makers|, Frame(c.order.owner, c.order.terms.Collateral()));
  }

  /** What the planner converts for a maker ask is what the program converts. */
  lemma AskTaken(m: Market, input: P.Input, r: Request, key: OrderKey, o: Order, c: P.Candidate, q: u64)
    requires o.terms == c.order.terms && o.terms.side == 1 && c.reserved == Some(o.reserved)
             && c.remaining == o.remaining
    requires var base := o.terms.Collateral();
             && base in r.touched && 1 <= base <= MAX_BASES && input.legs.Some? && base in input.legs.value
             && input.legs.value[base].scale == m.legs[base - 1].scale
             && input.legs.value[base].multiplier == r.live[base].multiplier
             && BaseRaw(q, m.legs[base - 1].scale, r.live[base].multiplier, false) == Ok(RawFor(m, r, base, q))
             && RawFor(m, r, base, q) > 0
    requires W.DeliveryOf(input, c, q).Delivers?
    requires W.DeliveryOf(input, c, q).refund && o.terms.funding == 0
             ==> Frame(key.owner, o.terms.Collateral()) in r.frames
    ensures ReviewAsk(m, r, key, o, q) == Take(q)
  {
    hide BaseRaw, RawFor, OrderTerms.Collateral;
  }

  lemma RefundIsReturned(p: P.AtomicPlan, input: P.Input, c: P.Candidate, i: nat)
    requires i < |p.makers| == |p.quantities| == |p.expectedRemaining| && p.makers[i] == c.order
             && c.order.terms.side == 1
    requires 0 < p.quantities[i] <= p.expectedRemaining[i] == c.remaining <= U64_MAX
    requires W.DeliveryOf(input, c, p.quantities[i]).Delivers?
    requires p.surplus.Some? ==> |p.surplus.value| == |p.makers|
                                 && p.surplus.value[i] == W.DeliveryOf(input, c, p.quantities[i]).refund
    ensures W.DeliveryOf(input, c, p.quantities[i]).refund ==> I.Returns(p, i)
  {
    hide BaseRaw, OrderTerms.Collateral;
  }

  /** A maker ask of the plan delivers. */
  lemma AskDelivers(s: Chain, id: Pubkey, input: P.Input, p: P.AtomicPlan, r: Request, i: nat, c: P.Candidate)
    requires Inv(s) && Sees(s, id, input, r.live, r.lapsed) && input.step > 0 && Leg(s, id, input, p, r, i, c)
    requires c.order.terms.side == 1 && r.terms == input.order.terms && r.terms.side == 0
    requires c.order.terms.Collateral() in r.touched
    requires c.order.terms.funding == 0 && I.Returns(p, i)
             ==> Frame(c.order.owner, c.order.terms.Collateral()) in r.frames
    ensures I.Key(c.order) in s.books[id].orders
    ensures ReviewAsk(s.books[id].market, r, I.Key(c.order), s.books[id].orders[I.Key(c.order)], p.quantities[i])
            == Take(p.quantities[i])
  {
    hide Inv, P.Reported, Floor, OrderTerms.Collateral, OrderTerms.Accepts, LegOpen, BaseRaw, RawFor, W.DeliveryOf,
      I.Returns, ReviewAsk, BookOk, LegsOk, Core;
    InvBook(s, id);
    var m, o, base := s.books[id].market, s.books[id].orders[I.Key(c.order)], c.order.terms.Collateral();
    LegsCover(s.books[id], I.Key(c.order));
    assert input.legs.value[base]
           == P.LegState(m.legs[base - 1].scale, r.live[base].multiplier, LegOpen(m, base, r.live));
    StepsAreWhole(p.quantities[i], input.step);
    TouchedConverts(m, r, base, p.quantities[i]);
    RefundIsReturned(p, input, c, i);
    AskTaken(m, input, r, I.Key(c.order), o, c, p.quantities[i]);
  }

  lemma StepsAreWhole(quantity: int, step: int)
    requires step > 0 && quantity > 0 && quantity % step == 0
    ensures step <= quantity
  {
    MultipleAtLeast(quantity, step);
  }

  lemma LegsCover(b: Book, key: OrderKey)
    requires BookOk(b) && key in b.orders && b.orders[key].status == LIVE && b.orders[key].terms.side == 1
    ensures 1 <= b.orders[key].terms.Collateral() <= b.market.bases
            && b.orders[key].remaining <= b.market.terms.caps.maxQuantity
    ensures LegsOk(b.market)
  {
    hide BookOk, OrderTerms.Collateral, Ceil, LegsOk;
    MakerFacts(b, key);
    BookParts(b);
  }

  /** The program returns a bid what the client expects it to return. */
  lemma BidTaken(m: Market, r: Request, key: OrderKey, o: Order, p: P.AtomicPlan, i: nat)
    requires i < |p.makers| == |p.quantities| == |p.expectedRemaining| && p.makers[i].terms == o.terms
             && o.terms.side == 0
    requires 0 < p.quantities[i] <= p.expectedRemaining[i] == o.remaining <= U64_MAX
    requires p.surplus.Some? ==> |p.surplus.value| == |p.makers|
    requires m.terms.caps.step > 0 && p.quantities[i] % m.terms.caps.step == 0
    requires 0 < r.terms.price <= o.terms.price && Ceil(o.remaining, o.terms.price) <= U64_MAX
    requires Floor(p.quantities[i], o.terms.price) > 0
    requires o.terms.funding == 0 && I.Returns(p, i) ==> Frame(key.owner, QUOTE) in r.frames
    ensures ReviewBid(m, r, key, o, p.quantities[i]) == Take(p.quantities[i])
  {
    hide Floor, Ceil, Fill;
    var q := p.quantities[i];
    QuoteMono(q, o.remaining, r.terms.price, o.terms.price);
    FillSucceeds(q, m.terms.caps.step, o.remaining, q, o.terms.price, r.terms.price, true);
  }

  /** A maker bid of the plan pays: its frame is presented whenever it is returned something. */
  lemma BidPays(s: Chain, id: Pubkey, input: P.Input, p: P.AtomicPlan, r: Request, i: nat, c: P.Candidate)
    requires Inv(s) && Sees(s, id, input, r.live, r.lapsed) && input.step > 0 && Leg(s, id, input, p, r, i, c)
    requires c.order.terms.side == 0 && r.terms == input.order.terms && r.terms.side == 1 && r.terms.price > 0
    requires c.order.terms.funding == 0 && I.Returns(p, i) ==> Frame(c.order.owner, QUOTE) in r.frames
    ensures I.Key(c.order) in s.books[id].orders && 0 <= s.books[id].orders[I.Key(c.order)].remaining <= U64_MAX
    ensures ReviewBid(s.books[id].market, r, I.Key(c.order), s.books[id].orders[I.Key(c.order)], p.quantities[i])
            == Take(p.quantities[i])
  {
    hide Inv, P.Reported, Floor, Ceil, OrderTerms.Collateral, OrderTerms.Accepts, LegOpen, W.DeliveryOf, I.Returns,
      ReviewBid, BookOk, LegsOk, Core;
    InvBook(s, id);
    MakerFacts(s.books[id], I.Key(c.order));
    BidTaken(s.books[id].market, r, I.Key(c.order), s.books[id].orders[I.Key(c.order)], p, i);
  }

  lemma SizedOrders(s: Chain, id: Pubkey)
    requires Inv(s) && id in s.books
    ensures Sized(s.books[id].orders)
  {
    hide Inv;
    SizedBook(s, id);
  }

  /** The leg reads as well planned against the book's order. */
  lemma LegIsWellPlanned(s: Chain, id: Pubkey, input: P.Input, p: P.AtomicPlan, r: Request, i: nat, c: P.Candidate)
    requires Sees(s, id, input, r.live, r.lapsed) && input.step > 0 && Leg(s, id, input, p, r, i, c)
    requires r.terms == input.order.terms && r.plan.nextSequence == input.nextSequence && r.terms.side < 2
    ensures I.Key(c.order) in s.books[id].orders && WellPlanned(r, p.quantities[i], s.books[id].orders[I.Key(c.order)])
    ensures c.order.terms.side < 2 && c.order.terms.side != r.terms.side
    ensures WellFilled(s.books[id].market, r, s.books[id].orders, Pick(I.Key(c.order), p.quantities[i]))
  {
    hide Floor, OrderTerms.Collateral, OrderTerms.Accepts, LegOpen, W.DeliveryOf, BoundNonce, SingleBase;
  }

  /** What comes before the conversion in a maker's review. */
  lemma ReviewReaches(m: Market, orders: map<OrderKey, Order>, traders: map<Pubkey, u64>, config: Config, now: int,
                      r: Request, key: OrderKey, planned: u64)
    requires Sized(orders) && key in orders && orders[key].status == LIVE && WellPlanned(r, planned, orders[key])
    requires now < orders[key].terms.expiry <= m.terms.tradingCutoff
    requires key.owner in r.participants && key.owner in traders && traders[key.owner] <= orders[key].terms.nonce
    requires config.makerBps <= orders[key].terms.maxFeeBps && key !in r.lapsed
             && orders[key].terms.recipient in r.participants
    requires config.takerBps <= r.terms.maxFeeBps && planned <= orders[key].remaining
    ensures Review(m, orders, traders, config, now, r, key, planned)
         == if r.terms.side == 0 then ReviewAsk(m, r, key, orders[key], planned)
           else ReviewBid(m, r, key, orders[key], planned)
  {
    hide WellPlanned, ReviewAsk, ReviewBid;
  }

  lemma WithinCutoff(s: Chain, id: Pubkey, key: OrderKey)
    requires Inv(s) && id in s.books && key in s.books[id].orders
    ensures s.books[id].orders[key].terms.expiry <= s.books[id].market.terms.tradingCutoff
  {
    hide Inv, BookOk, Balanced, NonNegative, Caps.ValidateOrder, SingleBase, BoundNonce, Ceil;
    InvBook(s, id);
    assert OrderOk(s.books[id].market, key, s.books[id].orders[key]);
  }

  /** Every planned maker survives the review at its planned quantity: none is stale, none lacks a
      frame, none delivers or pays too little. */
  lemma LegSurvives(s: Chain, id: Pubkey, input: P.Input, queue: seq<P.Candidate>, r: Request, i: nat)
    requires Setting(s, id, input, queue, r) && i < |r.makers| && s.now < r.plan.deadline
    ensures |r.makers| == |r.plan.legs| && Sized(s.books[id].orders)
    ensures var b := s.books[id];
            && Review(b.market, b.orders, s.traders, s.config, s.now, r, r.makers[i], r.plan.legs[i])
               == Take(r.plan.legs[i])
            && WellFilled(b.market, r, b.orders, Pick(r.makers[i], r.plan.legs[i]))
  {
    hide Setting, Inv, P.Parses, Floor, OrderTerms.Collateral, OrderTerms.Accepts, LegOpen, W.DeliveryOf, I.Returns,
      ReviewBid, ReviewAsk, Review, WellPlanned, W.PlanOf, L.Reads, I.Presents, P.AllReported, P.Queue, WellFilled,
      L.Planning, P.Reported;
    SettingReads(s, id, input, queue, r);
    SizedOrders(s, id);
    RequestFacts(s, id, input, queue, r);
    var c := LegKnown(s, id, input, queue, r, i);
    var p := PlanHeld(s, id, input, queue, r);
    LegPresented(s, id, input, queue, r, i, c);
    WithinCutoff(s, id, I.Key(c.order));
    TakerSides(input.order);
    LegIsWellPlanned(s, id, input, p, r, i, c);
    if r.terms.side == 0 {
      AskDelivers(s, id, input, p, r, i, c);
    } else {
      CollateralOfBid(c.order.terms);
      BidPays(s, id, input, p, r, i, c);
    }
    ReviewReaches(s.books[id].market, s.books[id].orders, s.traders, s.config, s.now, r, I.Key(c.order),
                  p.quantities[i]);
  }

  lemma PlanHeld(s: Chain, id: Pubkey, input: P.Input, queue: seq<P.Candidate>, r: Request) returns (p: P.AtomicPlan)
    requires Prepared(s, id, input, queue, r)
    ensures W.Sized(queue) && W.PlanOf(input, queue) == P.Answer(p)
  {
    hide Inv, Sees, L.Reads, I.Presents, W.PlanOf, P.AllReported, P.Queue;
    p := W.PlanOf(input, queue).value;
  }

  lemma TakerSides(w: P.Wire)
    requires P.Parses(w)
    ensures w.terms.side < 2 && w.terms.price > 0 && w.terms.branch < 2
  {
  }

  lemma CollateralOfBid(t: OrderTerms)
    ensures t.side == 0 ==> t.Collateral() == QUOTE
  {
  }

  // ---------------------------------------------------------------- entry checks

  lemma {:induction false} NoMoreThan<T>(list: seq<T>, all: set<T>)
    requires Distinct(list) && forall x | x in list :: x in all
    ensures |list| <= |all|
    decreases list
  {
    if list != [] {
      var n := |list| - 1;
      NoMoreThan(list[..n], all - {list[n]});
    }
  }

  function Parties(order: P.Wire, makers: seq<P.Wire>, n: nat): (all: set<Pubkey>)
    requires n <= |makers|
    ensures |all| <= 2 * (n + 1)
    ensures forall o :: I.Takes(order, makers, n, o) ==> o in all
  {
    if n == 0 then {order.owner, order.terms.recipient}
    else Parties(order, makers, n - 1) + {makers[n - 1].owner, makers[n - 1].terms.recipient}
  }

  function Funders(order: P.Wire, p: P.AtomicPlan, n: nat): (all: set<Frame>)
    requires L.Reads(p, order) && n <= |p.makers|
    ensures |all| <= n + 1
    ensures forall f :: I.Framed(order, p, n, f) ==> f in all
  {
    hide L.Reads, I.Returns;
    if n == 0 then {Frame(order.owner, order.terms.Collateral())}
    else Funders(order, p, n - 1) + {Frame(p.makers[n - 1].owner, p.makers[n - 1].terms.Collateral())}
  }

  /** No more accounts than the instruction may present, at least the owner's. */
  lemma AccountsFit(order: P.Wire, p: P.AtomicPlan, r: Request)
    requires L.Reads(p, order) && I.Presents(r, order, p)
    ensures 0 < |r.participants| <= 2 * (|r.plan.legs| + 1) && |r.frames| <= MAX_MAKERS + 1
  {
    hide L.LegReads, I.Touched, I.Takes, I.Framed, L.LegsRead;
    var n := |p.makers|;
    NoMoreThan(r.participants, Parties(order, p.makers, n));
    NoMoreThan(r.frames, Funders(order, p, n));
    assert order.owner in r.participants by { OwnerTakes(order, p.makers, n); }
  }

  lemma OwnerTakes(order: P.Wire, makers: seq<P.Wire>, n: nat)
    requires n <= |makers|
    ensures I.Takes(order, makers, n, order.owner) && I.Takes(order, makers, n, order.terms.recipient)
  {
  }

  lemma MakersApart(order: P.Wire, p: P.AtomicPlan, r: Request)
    requires L.Reads(p, order) && I.Presents(r, order, p)
    ensures Distinct(r.makers)
  {
    hide P.Parses, I.Touched, I.Takes, I.Framed, Floor, OrderTerms.Collateral, OrderTerms.Accepts, L.Sum, L.Quoted;
    forall i, j | 0 <= i < j < |r.makers|
      ensures r.makers[i] != r.makers[j]
    {
      assert L.LegReads(p, order, i) && L.LegReads(p, order, j);
    }
  }

  /** Every participant's accounts are there. */
  lemma ParticipantsExist(s: Chain, id: Pubkey, input: P.Input, queue: seq<P.Candidate>, r: Request, o: Pubkey)
    requires Prepared(s, id, input, queue, r) && MayPlace(s, id, r) && o in r.participants
    ensures o in s.books[id].wallets && o in s.traders
  {
    hide Inv, P.Parses, Floor, OrderTerms.Collateral, OrderTerms.Accepts, LegOpen, W.DeliveryOf, W.PlanOf, L.Reads,
      P.AllReported, P.Queue, P.Reported, ReservedFor, AvailableTo, L.Planning, P.Eligible, Caps.ValidateOrder,
      Trading;
    RequestFacts(s, id, input, queue, r);
    var p := PlanHeld(s, id, input, queue, r);
    assert I.Takes(input.order, p.makers, |p.makers|, o);
    if o != r.owner && o != r.terms.recipient {
      var i :| 0 <= i < |p.makers| && (o == p.makers[i].owner || o == p.makers[i].terms.recipient);
      var c := LegKnown(s, id, input, queue, r, i);
      OwnerHasWallet(s, id, I.Key(c.order));
      assert A.HostedOrder(s, s.books[id], I.Key(c.order));
    }
    WalletsHaveTraders(s, id, o);
  }

  lemma WalletsHaveTraders(s: Chain, id: Pubkey, o: Pubkey)
    requires Inv(s) && id in s.books
    ensures o in s.books[id].wallets ==> o in s.traders
  {
    hide Inv, BookOk;
    InvBook(s, id);
  }

  lemma OwnerHasWallet(s: Chain, id: Pubkey, key: OrderKey)
    requires Inv(s) && id in s.books && key in s.books[id].orders
    ensures key.owner in s.books[id].wallets
  {
    hide Inv, BookOk, NonNegative, OrdersOk, TermsOk, OrderTerms.Asset;
    InvBook(s, id);
  }

  lemma TradableIsOpen(s: Chain, id: Pubkey, input: P.Input, live: Live, lapsed: set<OrderKey>, c: nat)
    requires Sees(s, id, input, live, lapsed) && P.Tradable(input, c)
    ensures 1 <= c <= s.books[id].market.bases && LegOpen(s.books[id].market, c, live)
  {
    hide SeesCandidate, WithinBand;
  }

  /** Every touched leg is open: the planner took only tradable ones. */
  lemma TouchedOpen(s: Chain, id: Pubkey, input: P.Input, queue: seq<P.Candidate>, r: Request, c: nat)
    requires Prepared(s, id, input, queue, r) && c in r.touched
    ensures 1 <= c <= s.books[id].market.bases && LegOpen(s.books[id].market, c, r.live)
  {
    hide Inv, P.Parses, Floor, OrderTerms.Collateral, OrderTerms.Accepts, LegOpen, W.DeliveryOf, W.PlanOf, L.Reads,
      P.AllReported, P.Queue, Sees, SeesCandidate, I.Takes, I.Framed;
    RequestFacts(s, id, input, queue, r);
    TakerSides(input.order);
    if r.terms.side == 1 {
      TradableIsOpen(s, id, input, r.live, r.lapsed, c);
    } else {
      var p := PlanHeld(s, id, input, queue, r);
      assert c in I.Touched(input.order, p.makers, |p.makers|);
      var i :| 0 <= i < |p.makers| && c == p.makers[i].terms.Collateral();
      var l := LegKnown(s, id, input, queue, r, i);
      TakerSides(l.order);
      TradableIsOpen(s, id, input, r.live, r.lapsed, c);
    }
  }

  /** Every frame is of a participant's existing credit account, in a collateral whose custody is presented. */
  lemma FramePresented(s: Chain, id: Pubkey, input: P.Input, queue: seq<P.Candidate>, r: Request, f: Frame)
    requires Prepared(s, id, input, queue, r) && MayPlace(s, id, r) && f in r.frames
    ensures r.Presented(f.collateral) && f.collateral < COLLATERALS && f.owner in r.participants
    ensures KeyOf(s.books[id].market, f) in s.credits
  {
    hide Inv, P.Parses, Floor, OrderTerms.Accepts, LegOpen, W.DeliveryOf, W.PlanOf, L.Reads, P.AllReported, I.Returns,
      P.Queue, P.Reported, ReservedFor, AvailableTo, L.Planning, P.Eligible, Caps.ValidateOrder, Trading, I.Takes,
      OrderTerms.Collateral;
    RequestFacts(s, id, input, queue, r);
    TakerSides(input.order);
    var p := PlanHeld(s, id, input, queue, r);
    assert I.Framed(input.order, p, |p.makers|, f);
    OwnerTakes(input.order, p.makers, |p.makers|);
    if f == Frame(r.owner, r.terms.Collateral()) && r.terms.funding == 0 {
      CollateralBounds(s, id, input, queue, r);
    } else {
      var i :| 0 <= i < |p.makers| && p.makers[i].terms.funding == 0
          && f == Frame(p.makers[i].owner, p.makers[i].terms.Collateral());
      var c := LegKnown(s, id, input, queue, r, i);
      LegPresented(s, id, input, queue, r, i, c);
      MakerCollateral(s, id, input, queue, r, c);
      assert A.HostedOrder(s, s.books[id], I.Key(c.order));
    }
  }

  lemma CollateralBounds(s: Chain, id: Pubkey, input: P.Input, queue: seq<P.Candidate>, r: Request)
    requires Prepared(s, id, input, queue, r)
    ensures r.terms.Collateral() < COLLATERALS && r.Presented(r.terms.Collateral())
  {
    hide Inv, Floor, OrderTerms.Accepts, LegOpen, W.DeliveryOf, W.PlanOf, L.Reads, P.AllReported, I.Returns, P.Queue,
      I.Takes, I.Framed, BoundNonce, Sees;
    RequestFacts(s, id, input, queue, r);
  }

  lemma MakerCollateral(s: Chain, id: Pubkey, input: P.Input, queue: seq<P.Candidate>, r: Request, c: P.Candidate)
    requires Prepared(s, id, input, queue, r) && input.step > 0 && P.Reported(input, c)
    requires r.terms.side == 0 ==> c.order.terms.Collateral() in r.touched
    ensures c.order.terms.Collateral() < COLLATERALS && r.Presented(c.order.terms.Collateral())
  {
    hide Inv, Floor, OrderTerms.Accepts, LegOpen, W.DeliveryOf, W.PlanOf, L.Reads, P.AllReported, I.Returns, P.Queue,
      I.Takes, I.Framed, BoundNonce, Sees;
    RequestFacts(s, id, input, queue, r);
  }

  /** The checks before a plan is reviewed, one by one. */
  lemma EntryMeets(s: Chain, id: Pubkey, r: Request)
    requires id in s.books
    requires 0 < |r.participants| <= 2 * (|r.plan.legs| + 1) && |r.makers| == |r.plan.legs| <= MAX_MAKERS
             && |r.frames| <= MAX_MAKERS + 2
    requires BoundNonce(r.terms.salt).Some? ==> BoundNonce(r.terms.salt).value == r.terms.nonce
    requires TermsShape(s.books[id].market, r.terms)
    requires forall c | c in r.touched :: 1 <= c <= s.books[id].market.bases && LegOpen(s.books[id].market, c, r.live)
    requires MayPlace(s, id, r) && r.plan.deadline <= r.terms.expiry
    requires r.plan.nextSequence == s.books[id].market.sequence[r.terms.branch]
    requires r.plan.makerBps == s.config.makerBps && r.plan.takerBps == s.config.takerBps
    requires Distinct(r.makers) && r.Key() !in r.makers
    requires Distinct(r.participants) && forall o | o in r.participants :: o in s.books[id].wallets && o in s.traders
    requires Distinct(r.frames) && FramesPresented(s, s.books[id], r)
    requires r.owner in r.participants && r.terms.recipient in r.participants
    ensures Entry(s, id, r).Done?
  {
    hide BoundNonce, LegOpen, FramesPresented, Caps.ValidateOrder, ReservedFor, AvailableTo, KeyOf, SingleBase,
      OrderTerms.Collateral;
  }

  lemma ShapeHolds(s: Chain, id: Pubkey, input: P.Input, queue: seq<P.Candidate>, r: Request)
    requires Prepared(s, id, input, queue, r) && MayPlace(s, id, r)
    ensures TermsShape(s.books[id].market, r.terms)
    ensures BoundNonce(r.terms.salt).Some? ==> BoundNonce(r.terms.salt).value == r.terms.nonce
    ensures Distinct(r.participants) && Distinct(r.frames) && r.owner in r.participants
            && r.terms.recipient in r.participants
  {
    hide Inv, Floor, OrderTerms.Accepts, LegOpen, W.DeliveryOf, W.PlanOf, L.Reads, P.AllReported, I.Returns, P.Queue,
      I.Takes, I.Framed, BoundNonce, Sees, SingleBase, ReservedFor, AvailableTo, L.Planning, Caps.ValidateOrder,
      OrderTerms.Collateral, I.Touched;
    RequestFacts(s, id, input, queue, r);
    var p := PlanHeld(s, id, input, queue, r);
    OwnerTakes(input.order, p.makers, |p.makers|);
  }

  lemma KeyIsNoMaker(s: Chain, id: Pubkey, input: P.Input, queue: seq<P.Candidate>, r: Request)
    requires Prepared(s, id, input, queue, r) && MayPlace(s, id, r)
    ensures r.Key() !in r.makers
  {
    hide Inv, P.Parses, Floor, OrderTerms.Accepts, LegOpen, W.DeliveryOf, W.PlanOf, L.Reads, P.AllReported, I.Returns,
      P.Queue, I.Presents, Sees, ReservedFor, AvailableTo, L.Planning, Caps.ValidateOrder, OrderTerms.Collateral,
      P.Eligible, P.Reported, Trading;
    forall i | 0 <= i < |r.makers|
      ensures r.makers[i] != r.Key()
    {
      var c := LegKnown(s, id, input, queue, r, i);
    }
  }

  lemma EntryPasses(s: Chain, id: Pubkey, input: P.Input, queue: seq<P.Candidate>, r: Request)
    requires Setting(s, id, input, queue, r) && MayPlace(s, id, r)
    ensures Entry(s, id, r).Done?
  {
    hide Setting, Inv, P.Parses, L.Reads, P.AllReported, P.Queue, I.Presents, L.Planning, W.PlanOf, MayPlace, Entry,
      TermsShape, BoundNonce, LegOpen, KeyOf, SeesCandidate;
    SettingReads(s, id, input, queue, r);
    RequestFacts(s, id, input, queue, r);
    var p := PlanHeld(s, id, input, queue, r);
    AccountsFit(input.order, p, r);
    MakersApart(input.order, p, r);
    ShapeHolds(s, id, input, queue, r);
    KeyIsNoMaker(s, id, input, queue, r);
    forall c | c in r.touched
      ensures 1 <= c <= s.books[id].market.bases && LegOpen(s.books[id].market, c, r.live)
    {
      TouchedOpen(s, id, input, queue, r, c);
    }
    forall o | o in r.participants
      ensures o in s.books[id].wallets && o in s.traders
    {
      ParticipantsExist(s, id, input, queue, r, o);
    }
    forall f | f in r.frames
      ensures r.Presented(f.collateral) && f.collateral < COLLATERALS && KeyOf(s.books[id].market, f) in s.credits
              && f.owner in r.participants
    {
      FramePresented(s, id, input, queue, r, f);
    }
    EntryMeets(s, id, r);
  }

  // --------------------------------------------------------------- filled as planned

  /** The planned makers at their planned quantities. */
  function AsPlanned(r: Request, n: nat): (picks: seq<Pick>)
    requires n <= |r.makers| == |r.plan.legs|
    ensures |picks| == n && forall i | 0 <= i < n :: picks[i] == Pick(r.makers[i], r.plan.legs[i])
  {
    if n == 0 then [] else AsPlanned(r, n - 1) + [Pick(r.makers[n - 1], r.plan.legs[n - 1])]
  }

  lemma {:induction false} AllSurvive(s: Chain, id: Pubkey, input: P.Input, queue: seq<P.Candidate>, r: Request, n: nat)
    requires Setting(s, id, input, queue, r) && s.now < r.plan.deadline && n <= |r.makers|
    ensures |r.makers| == |r.plan.legs| && Sized(s.books[id].orders)
    ensures var b := s.books[id];
            Survivors(b.market, b.orders, s.traders, s.config, s.now, r, n) == AsPlanned(r, n)
  {
    hide Setting, Prepared, Review, Sees, WellFilled, Sized, Inv;
    SettingReads(s, id, input, queue, r);
    SettingSized(s, id, input, queue, r);
    if n > 0 {
      AllSurvive(s, id, input, queue, r, n - 1);
      LegSurvives(s, id, input, queue, r, n - 1);
    }
  }

  lemma SettingSized(s: Chain, id: Pubkey, input: P.Input, queue: seq<P.Candidate>, r: Request)
    requires Prepared(s, id, input, queue, r)
    ensures id in s.books && |r.makers| == |r.plan.legs| && Sized(s.books[id].orders) && r.terms.branch < 2
            && r.terms.side < 2
    ensures Inv(s)
  {
    hide Inv, P.Parses, L.Reads, P.AllReported, P.Queue, I.Presents, L.Planning, W.PlanOf, SeesCandidate, LegOpen,
      Sized;
    RequestFacts(s, id, input, queue, r);
    TakerSides(input.order);
    SizedOrders(s, id);
  }

  lemma {:induction false} PickedIsAsked(r: Request, n: nat)
    requires n <= |r.makers| == |r.plan.legs|
    ensures TotalPicked(AsPlanned(r, n)) == L.Sum(r.plan.legs[..n])
  {
    if n > 0 {
      PickedIsAsked(r, n - 1);
      assert AsPlanned(r, n)[..n - 1] == AsPlanned(r, n - 1);
      assert r.plan.legs[..n][..n - 1] == r.plan.legs[..n - 1];
    } else {
      assert AsPlanned(r, 0) == [];
    }
  }

  lemma TotalsHold(s: Chain, id: Pubkey, input: P.Input, queue: seq<P.Candidate>, r: Request)
    requires Prepared(s, id, input, queue, r)
    ensures |r.makers| == |r.plan.legs| && W.Sized(queue) && W.PlanOf(input, queue).Answer?
    ensures var total := TotalPicked(AsPlanned(r, |r.makers|));
            total == W.PlanOf(input, queue).value.filled && r.plan.minFill <= total <= r.terms.quantity
    ensures r.terms.side == 1 ==> r.terms.Collateral() in r.touched
  {
    hide Inv, P.Parses, P.AllReported, P.Queue, L.Planning, W.PlanOf, Sees, L.LegsRead, L.Sum, I.Takes, I.Framed,
      OrderTerms.Collateral, TotalPicked, L.Quoted;
    RequestFacts(s, id, input, queue, r);
    var p := PlanHeld(s, id, input, queue, r);
    PickedIsAsked(r, |r.makers|);
    assert r.plan.legs[..|r.makers|] == r.plan.legs;
  }

  /** On the book the planner saw, its plan is admissible up to the exposure caps: every maker
      trades exactly its planned quantity, and no maker is skipped, for want of a frame or otherwise. */
  lemma PlanIsAccepted(s: Chain, id: Pubkey, input: P.Input, queue: seq<P.Candidate>, r: Request)
    requires Setting(s, id, input, queue, r) && MayPlace(s, id, r)
    ensures Entry(s, id, r).Done? && Fillable(s, id, r)
    ensures |r.makers| == |r.plan.legs| && Sized(s.books[id].orders) && Picks(s, id, r) == AsPlanned(r, |r.makers|)
    ensures TotalPicked(Picks(s, id, r)) == W.PlanOf(input, queue).value.filled
  {
    hide Setting, Inv, Review, Entry, WellFilled, TotalPicked, Survivors, ReservedFor, AvailableTo, P.Parses,
      P.AllReported, P.Queue, L.Planning, W.PlanOf, L.Reads, I.Presents, SeesCandidate, LegOpen, OrderTerms.Collateral;
    SettingReads(s, id, input, queue, r);
    EntryPasses(s, id, input, queue, r);
    SettingSized(s, id, input, queue, r);
    RequestFacts(s, id, input, queue, r);
    AllSurvive(s, id, input, queue, r, |r.makers|);
    TotalsHold(s, id, input, queue, r);
    forall i | 0 <= i < |r.makers|
      ensures var b := s.books[id];
              && Review(b.market, b.orders, s.traders, s.config, s.now, r, r.makers[i], r.plan.legs[i])
                 == Take(r.plan.legs[i])
              && WellFilled(b.market, r, b.orders, Pick(r.makers[i], r.plan.legs[i]))
    {
      LegSurvives(s, id, input, queue, r, i);
    }
    SequenceLeft(s, id, input, queue, r);
  }

  lemma SequenceLeft(s: Chain, id: Pubkey, input: P.Input, queue: seq<P.Candidate>, r: Request)
    requires Prepared(s, id, input, queue, r)
    ensures id in s.books && r.terms.branch < 2 && s.books[id].market.sequence[r.terms.branch] < U64_MAX
  {
    hide Inv, P.Parses, L.Reads, P.AllReported, P.Queue, W.PlanOf, SeesCandidate, LegOpen;
    RequestFacts(s, id, input, queue, r);
  }

  /** What the first n trades pay. */
  function Paid(trades: seq<Trade>, n: nat): nat
    requires n <= |trades|
  {
    if n == 0 then 0 else Paid(trades, n - 1) + trades[n - 1].Quote()
  }

  lemma TradePays(s: Chain, id: Pubkey, input: P.Input, queue: seq<P.Candidate>, r: Request, i: nat)
    requires Setting(s, id, input, queue, r) && MayPlace(s, id, r) && i < |r.makers|
    ensures |r.makers| == |r.plan.legs| && Sized(s.books[id].orders) && |Trades(s, id, r)| == |r.makers|
    ensures W.Sized(queue) && W.PlanOf(input, queue).Answer?
    ensures var p := W.PlanOf(input, queue).value;
            |p.makers| == |r.makers| == |p.quantities| && p.quantities[i] > 0
            && Trades(s, id, r)[i].Quote() == Floor(p.quantities[i], p.makers[i].terms.price)
            && Trades(s, id, r)[i].quantity == p.quantities[i]
  {
    hide Setting, Inv, Fillable, MayPlace, P.Parses, P.AllReported, P.Queue, L.Planning, W.PlanOf, L.Reads, I.Presents,
      P.Reported, P.Eligible, RawFor, TradedBase, Floor, OrderTerms.Collateral, Survivors, W.DeliveryOf, Entry, LegOpen,
      AsPlanned;
    SettingReads(s, id, input, queue, r);
    PlanIsAccepted(s, id, input, queue, r);
    RequestFacts(s, id, input, queue, r);
    var p := PlanHeld(s, id, input, queue, r);
    var c := LegKnown(s, id, input, queue, r, i);
    assert Picks(s, id, r)[i] == Pick(r.makers[i], r.plan.legs[i]);
  }

  lemma {:induction false} TradesPay(s: Chain, id: Pubkey, input: P.Input, queue: seq<P.Candidate>, r: Request, n: nat)
    requires Setting(s, id, input, queue, r) && MayPlace(s, id, r) && n <= |r.makers|
    ensures |r.makers| == |r.plan.legs| && Sized(s.books[id].orders) && |Trades(s, id, r)| == |r.makers|
    ensures W.Sized(queue) && W.PlanOf(input, queue).Answer?
    ensures var p := W.PlanOf(input, queue).value;
            |p.makers| == |r.makers| == |p.quantities| && Paid(Trades(s, id, r), n) == L.Quoted(p, n)
  {
    hide Setting, Prepared, MayPlace, Trades, Floor, W.PlanOf, Sized;
    SettingReads(s, id, input, queue, r);
    if n == 0 {
      PlanIsAccepted(s, id, input, queue, r);
      PlanHasMakers(s, id, input, queue, r);
    } else {
      TradesPay(s, id, input, queue, r, n - 1);
      TradePays(s, id, input, queue, r, n - 1);
    }
  }

  lemma PlanHasMakers(s: Chain, id: Pubkey, input: P.Input, queue: seq<P.Candidate>, r: Request)
    requires Setting(s, id, input, queue, r) && MayPlace(s, id, r)
    ensures |r.makers| == |r.plan.legs| && Sized(s.books[id].orders) && |Trades(s, id, r)| == |r.makers|
    ensures W.Sized(queue) && W.PlanOf(input, queue).Answer?
    ensures var p := W.PlanOf(input, queue).value; |p.makers| == |r.makers| == |p.quantities|
  {
    hide Setting, Inv, Fillable, MayPlace, P.Parses, P.AllReported, P.Queue, L.Planning, W.PlanOf, L.Reads, I.Presents,
      Survivors, Entry, LegOpen, AsPlanned;
    SettingReads(s, id, input, queue, r);
    PlanIsAccepted(s, id, input, queue, r);
    RequestFacts(s, id, input, queue, r);
    var p := PlanHeld(s, id, input, queue, r);
  }

  /** A plan placed on the book it was made on succeeds exactly when it leaves the exposure within the
      caps: nothing it rests can have raced, and nothing else can refuse it. */
  lemma PlanSucceedsWithinCaps(s: Chain, id: Pubkey, input: P.Input, queue: seq<P.Candidate>, r: Request)
    requires Setting(s, id, input, queue, r) && MayPlace(s, id, r)
    ensures Fillable(s, id, r)
    ensures Admissible(s, id, r) <==> CapsHold(Ended(Start(s, id, r), r, Trades(s, id, r)).book, r.owner)
  {
    hide Setting, Prepared, MayPlace, Inv, Fillable, Trades, CapsHold, Ended, Start, Admissible, Picks, AsPlanned,
      Ticks, Sized, W.PlanOf, TotalPicked, RaceFree, RingOf, H.FinishOk, Rests, Entry;
    SettingReads(s, id, input, queue, r);
    SettingSized(s, id, input, queue, r);
    PlanIsAccepted(s, id, input, queue, r);
    H.AdmissibleWhen(s, id, r);
    NoRace(s, id, input, queue, r);
  }

  /** The fills of such a plan pay, together, exactly the plan's quote. */
  lemma PlanPaysItsQuote(s: Chain, id: Pubkey, input: P.Input, queue: seq<P.Candidate>, r: Request)
    requires Setting(s, id, input, queue, r) && MayPlace(s, id, r)
    ensures |r.makers| == |r.plan.legs| && Sized(s.books[id].orders) && |Trades(s, id, r)| == |r.makers|
            && W.Sized(queue)
    ensures W.PlanOf(input, queue).Answer?
            && Paid(Trades(s, id, r), |r.makers|) == W.PlanOf(input, queue).value.executionQuote
  {
    hide Setting, Prepared, MayPlace, Trades, Sized, W.PlanOf, Paid;
    SettingReads(s, id, input, queue, r);
    TradesPay(s, id, input, queue, r, |r.makers|);
    QuoteIsPlanned(s, id, input, queue, r);
  }

  /** What a placement trades: every maker its planned quantity, the taker their total, nobody else anything. */
  ghost predicate FilledAsPlanned(before: map<OrderKey, Order>, after: map<OrderKey, Order>, r: Request, total: int) {
    && |r.makers| == |r.plan.legs|
    && (forall i | 0 <= i < |r.makers| ::
          r.makers[i] in before && r.makers[i] in after
            && FilledBy(before[r.makers[i]], after[r.makers[i]], r.plan.legs[i]))
    && (forall k | k in before && k !in r.makers :: k in after && after[k] == before[k])
    && r.Key() in after && after[r.Key()].filled == total
  }

  lemma PicksFillMakers(before: map<OrderKey, Order>, after: map<OrderKey, Order>, r: Request, total: int)
    requires |r.makers| == |r.plan.legs| && after.Keys == before.Keys + {r.Key()} && after[r.Key()].filled == total
    requires forall p | p in AsPlanned(r, |r.makers|) ::
             p.key in before && p.key in after && FilledBy(before[p.key], after[p.key], p.quantity)
    requires forall k | k in before && (forall p | p in AsPlanned(r, |r.makers|) :: p.key != k) :: after[k] == before[k]
    ensures FilledAsPlanned(before, after, r, total)
  {
    hide FilledBy;
    var picks := AsPlanned(r, |r.makers|);
    forall i | 0 <= i < |r.makers|
      ensures Pick(r.makers[i], r.plan.legs[i]) in picks
    {
      assert picks[i] == Pick(r.makers[i], r.plan.legs[i]);
    }
  }

  /** A plan placed on the book it was made on fills exactly what was planned. */
  lemma PlanIsCarriedOut(s: Chain, id: Pubkey, input: P.Input, queue: seq<P.Candidate>, r: Request)
    requires Setting(s, id, input, queue, r) && MayPlace(s, id, r)
    ensures Fillable(s, id, r) && Ticks(s.books[id].market, r.terms.price) <= U64_MAX && W.Sized(queue)
            && W.PlanOf(input, queue).Answer?
    ensures FilledAsPlanned(s.books[id].orders, Placed(s, id, r).books[id].orders, r,
                            W.PlanOf(input, queue).value.filled)
  {
    hide Setting, Prepared, MayPlace, Inv, Fillable, Placed, FilledBy, Picks, AsPlanned, Ticks, Sized, W.PlanOf,
      TotalPicked, FilledAsPlanned;
    SettingReads(s, id, input, queue, r);
    SettingSized(s, id, input, queue, r);
    TotalsHold(s, id, input, queue, r);
    PlanIsAccepted(s, id, input, queue, r);
    PlacementFills(s, id, r);
    PicksFillMakers(s.books[id].orders, Placed(s, id, r).books[id].orders, r, W.PlanOf(input, queue).value.filled);
  }

  lemma QuoteIsPlanned(s: Chain, id: Pubkey, input: P.Input, queue: seq<P.Candidate>, r: Request)
    requires Prepared(s, id, input, queue, r)
    ensures W.Sized(queue) && W.PlanOf(input, queue).Answer?
    ensures var p := W.PlanOf(input, queue).value;
            |p.makers| == |p.quantities| == |r.makers| && p.executionQuote == L.Quoted(p, |p.makers|)
  {
    hide Inv, Sees, P.Parses, P.AllReported, P.Queue, L.Planning, W.PlanOf, L.LegsRead, L.Quoted;
    RequestFacts(s, id, input, queue, r);
    var p := PlanHeld(s, id, input, queue, r);
  }

  lemma NoRace(s: Chain, id: Pubkey, input: P.Input, queue: seq<P.Candidate>, r: Request)
    requires Prepared(s, id, input, queue, r)
    ensures id in s.books && r.terms.branch < 2
    ensures var m := s.books[id].market;
            forall ticks: nat :: RaceFree(RECENT, r.plan.nextSequence, m.sequence[r.terms.branch], r.terms.side, ticks,
                                          RingOf(m, r.terms.branch)).Ok?
  {
    hide Inv, P.Parses, P.AllReported, P.Queue, L.Planning, W.PlanOf, L.Reads, I.Presents, RaceFree, RingOf,
      SeesCandidate, LegOpen;
    SettingSized(s, id, input, queue, r);
    RequestFacts(s, id, input, queue, r);
  }

  /** On such a book the client can always build the instruction of its plan: the check before signing
      accepts it, and no maker's quote overflows. */
  lemma PlanIsBuilt(s: Chain, id: Pubkey, input: P.Input, queue: seq<P.Candidate>, live: Live, lapsed: set<OrderKey>)
    requires Inv(s) && Sees(s, id, input, live, lapsed)
    requires L.Planning(input, queue) && P.AllReported(input) && P.Queue(input, queue) && W.PlanOf(input, queue).Answer?
    ensures L.Reads(W.PlanOf(input, queue).value, input.order) && I.Quotable(W.PlanOf(input, queue).value)
  {
    hide Inv, P.Parses, P.AllReported, P.Queue, Ceil, Floor, LegOpen, OrderTerms.Collateral, L.LegOk, L.Filled, L.Cost,
      L.LegsRanked, L.Kept, L.Lapses, W.Walked, BookOk, Core, L.Reads;
    PlanReads(s, id, input, queue, live, lapsed);
    L.WalkIsSound(input, queue, |queue|);
    assert queue[..|queue|] == queue;
    var w, p := W.Walked(input, queue, |queue|).value, W.PlanOf(input, queue).value;
    forall i | 0 <= i < |p.makers| && p.makers[i].terms.side == 0
      ensures p.expectedRemaining[i] >= 0 && Ceil(p.expectedRemaining[i], p.makers[i].terms.price) <= U64_MAX
    {
      assert w.legs[i] in w.legs;
      var c := w.legs[i].candidate;
      P.QueueHolds(input, queue, c);
      InvBook(s, id);
      MakerFacts(s.books[id], I.Key(c.order));
    }
  }

  // ------------------------------------------------------------- nobody is missed

  /** The planner knows the live state of every listed leg. */
  predicate KnowsEveryLeg(m: Market, input: P.Input) {
    input.legs.Some? && forall c | 1 <= c <= m.bases :: c in input.legs.value
  }

  /** Whom the program would fill, the planner queues: a candidate whose review would let it trade with
      the order, at a price that crosses, is eligible. */
  lemma TakeableIsEligible(s: Chain, id: Pubkey, input: P.Input, r: Request, c: P.Candidate, planned: u64,
                           quantity: u64)
    requires Inv(s) && Sees(s, id, input, r.live, r.lapsed) && KnowsEveryLeg(s.books[id].market, input)
    requires c in input.candidates && r.terms == input.order.terms && r.terms.side < 2 && Sized(s.books[id].orders)
    requires Review(s.books[id].market, s.books[id].orders, s.traders, s.config, s.now, r, I.Key(c.order), planned)
             == Take(quantity)
    requires if r.terms.side == 0 then c.order.terms.price <= r.terms.price else c.order.terms.price >= r.terms.price
    requires r.terms.side == 1 ==> r.terms.Collateral() in r.touched
    requires forall l | l in r.touched :: 1 <= l <= s.books[id].market.bases && LegOpen(s.books[id].market, l, r.live)
    ensures P.Eligible(input, c)
  {
    hide Inv, Review, LegOpen, OrderTerms.Collateral, OrderTerms.Accepts, ReviewBid, ReviewAsk, BookOk, P.Eligible,
      P.AskOf;
    InvBook(s, id);
    var b, key := s.books[id], I.Key(c.order);
    ReviewTakes(b.market, b.orders, s.traders, s.config, s.now, r, key, planned, quantity);
    MakerFacts(b, key);
    if r.terms.side == 0 { AskIsTouched(b.market, r, key, b.orders[key], quantity); }
    var base := P.AskOf(input, c).Collateral();
    BaseIsTouched(input, r, c);
    LegIsKnown(s, id, input, r, base);
    CandidateIsEligible(s, id, input, r, c, planned, base);
  }

  lemma AskIsTouched(m: Market, r: Request, key: OrderKey, o: Order, quantity: u64)
    requires ReviewAsk(m, r, key, o, quantity) == Take(quantity)
    ensures o.terms.Collateral() in r.touched
  {
    hide BaseRaw, OrderTerms.Collateral;
  }

  lemma BaseIsTouched(input: P.Input, r: Request, c: P.Candidate)
    requires r.terms == input.order.terms && r.terms.side < 2 && c.order.terms.side < 2
             && c.order.terms.side != r.terms.side
    requires r.terms.side == 0 ==> c.order.terms.Collateral() in r.touched
    requires r.terms.side == 1 ==> r.terms.Collateral() in r.touched
    ensures P.AskOf(input, c).Collateral() in r.touched
  {
    hide OrderTerms.Collateral;
  }

  lemma LegIsKnown(s: Chain, id: Pubkey, input: P.Input, r: Request, base: nat)
    requires Sees(s, id, input, r.live, r.lapsed) && KnowsEveryLeg(s.books[id].market, input)
    requires 1 <= base <= s.books[id].market.bases && LegOpen(s.books[id].market, base, r.live)
    ensures P.Tradable(input, base)
  {
    hide LegOpen, SeesCandidate;
    var m := s.books[id].market;
    assert input.legs.value[base]
           == P.LegState(m.legs[base - 1].scale, r.live[base].multiplier, LegOpen(m, base, r.live));
  }

  lemma CandidateIsEligible(s: Chain, id: Pubkey, input: P.Input, r: Request, c: P.Candidate, planned: u64, base: nat)
    requires Sees(s, id, input, r.live, r.lapsed) && c in input.candidates && r.terms == input.order.terms
             && r.terms.side < 2
    requires base == P.AskOf(input, c).Collateral() && P.Tradable(input, base)
    requires var key := I.Key(c.order);
             && key in s.books[id].orders && WellPlanned(r, planned, s.books[id].orders[key])
             && s.books[id].orders[key].terms.side < 2
             && s.now < s.books[id].orders[key].terms.expiry
             && s.config.makerBps <= s.books[id].orders[key].terms.maxFeeBps
    requires if r.terms.side == 0 then c.order.terms.price <= r.terms.price else c.order.terms.price >= r.terms.price
    ensures P.Eligible(input, c)
  {
    hide LegOpen, OrderTerms.Collateral, OrderTerms.Accepts, P.Tradable;
  }

  /** What the market's own book says of its open orders on the other side, the planner accepts as reported. */
  lemma BookIsReported(s: Chain, id: Pubkey, input: P.Input, live: Live, lapsed: set<OrderKey>, c: P.Candidate)
    requires Inv(s) && Sees(s, id, input, live, lapsed) && c in input.candidates && input.step > 0
    requires P.Parses(c.order) && c.order.market == id && c.id == P.IdOf(c.order) && input.order.terms.side < 2
    requires c.order.terms.branch == input.order.terms.branch && c.order.terms.side != input.order.terms.side
    ensures P.Reported(input, c)
  {
    hide Inv, P.Parses, LegOpen, Balanced, NonNegative, Backed, Drained, LegsOk, LifecycleOk, ExposureCapped,
      UnlistedEmpty, OrderTermsOk, Ceil;
    InvBook(s, id);
    var b, key := s.books[id], I.Key(c.order);
    assert OrderOk(b.market, key, b.orders[key]);
    MakerFacts(b, key);
  }

  /** An order the market would take for its size and time, the planner plans for. */
  lemma PlannerAdmits(s: Chain, id: Pubkey, input: P.Input, live: Live, lapsed: set<OrderKey>)
    requires Inv(s) && Sees(s, id, input, live, lapsed) && KnowsEveryLeg(s.books[id].market, input)
    requires P.Parses(input.order) && 0 <= input.maxMakers <= MAX_MAKERS && input.order.terms.expiry > input.now
    requires s.books[id].market.terms.caps.ValidateOrder(input.order.terms.quantity, input.order.terms.price).Ok?
    requires s.books[id].market.sequence[input.order.terms.branch] < U64_MAX
    requires var m, t := s.books[id].market, input.order.terms;
             t.side == 1 ==> 1 <= t.Collateral() <= m.bases && LegOpen(m, t.Collateral(), live)
    ensures P.Entry(input).Answer?
  {
    hide Inv, LegOpen, BookOk, P.Parses, OrderTerms.Collateral, SeesCandidate;
    InvBook(s, id);
  }

  // --------------------------------------------------------------- what is returned

  /** The plan says that a filled maker is returned something exactly when the program returns it
      something: an ask what its completed reservation does not need, a bid its price improvement. */
  lemma SurplusIsReturned(s: Chain, id: Pubkey, input: P.Input, r: Request, c: P.Candidate, t: Trade)
    requires Sees(s, id, input, r.live, r.lapsed) && c in input.candidates && c.order.terms.side == 1
    requires t.quantity <= U64_MAX && W.DeliveryOf(input, c, t.quantity).Delivers?
    requires 1 <= t.base <= MAX_BASES && t.base == c.order.terms.Collateral() && t.base in input.legs.value
    requires BaseRaw(t.quantity, s.books[id].market.legs[t.base - 1].scale, r.live[t.base].multiplier, false)
             == Ok(t.raw)
    ensures I.Key(c.order) in s.books[id].orders
    ensures W.DeliveryOf(input, c, t.quantity).known
    ensures W.DeliveryOf(input, c, t.quantity).refund <==> Surplus(s.books[id].orders[I.Key(c.order)], t) > 0
  {
    hide BaseRaw, OrderTerms.Collateral, LegOpen;
    assert input.legs.value[t.base] == P.LegState(s.books[id].market.legs[t.base - 1].scale, r.live[t.base].multiplier,
                                                  LegOpen(s.books[id].market, t.base, r.live));
  }

  lemma ImprovementIsReturned(p: P.AtomicPlan, i: nat, o: Order, t: Trade)
    requires i < |p.makers| == |p.quantities| == |p.expectedRemaining| && p.makers[i].terms == o.terms
             && o.terms.side == 0
    requires 0 < p.quantities[i] <= p.expectedRemaining[i] == o.remaining
    requires p.surplus.Some? ==> |p.surplus.value| == |p.makers|
    requires t.quantity == p.quantities[i] && t.price == o.terms.price
    ensures I.Returns(p, i) <==> Improvement(o, t) > 0
  {
    hide Ceil, Floor;
  }
}
