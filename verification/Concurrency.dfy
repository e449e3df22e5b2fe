/** What happens to a well-formed plan while the book moves on: makers may be filled, shrunk,
    cancelled or retired, and still the plan cannot break a placement. */
module Concurrency {
  import opened Exact
  import opened Rules
  import opened Sums
  import opened Conversion
  import opened State
  import opened Settlement
  import opened InFlight
  import opened Matching
  import opened Chain
  import opened Exchange
  import opened Placing
  import opened Completion
  import opened Protocol
  import opened Aging

  /** An order found later under an identity that was spent earlier is the earlier order, aged. */
  lemma {:induction false} SameOrderLater(states: seq<Chain>, actions: seq<Action>, i: nat, j: nat, id: Pubkey,
                                          key: OrderKey)
    requires Run(states, actions) && Initial(states[0]) && i <= j < |states| && Spent(states[i], id, key)
    requires id in states[j].books && key in states[j].books[id].orders
    ensures key in states[i].books[id].orders && Later(states[i].books[id].orders[key], states[j].books[id].orders[key])
  {
    hide Inv, Step, Initial, Can, After, PermanentlyClosed, BoundNonce, Later;
    if i == j {
      StillLater(states[i].books[id].orders[key]);
    } else {
      SpentForGood(states, actions, i, j - 1, id, key);
      RunStep(states, actions, j - 1);
      assert BookAges(states[j - 1], id, states[j].books[id]);
      SameOrderLater(states, actions, i, j - 1, id, key);
      LaterStill(states[i].books[id].orders[key], states[j - 1].books[id].orders[key], states[j].books[id].orders[key]);
    }
  }

  lemma {:induction false} TermsStay(states: seq<Chain>, actions: seq<Action>, i: nat, j: nat, id: Pubkey)
    requires Run(states, actions) && Initial(states[0]) && i <= j < |states| && id in states[i].books
    ensures id in states[j].books && states[j].books[id].market.terms == states[i].books[id].market.terms
  {
    hide Inv, Step, Initial, Can, After, Spent, Later, Retirable;
    if i < j {
      TermsStay(states, actions, i, j - 1, id);
      RunStep(states, actions, j - 1);
      assert BookAges(states[j - 1], id, states[j].books[id]);
    }
  }

  // ------------------------------------------------------------ well-formed plans

  /** One leg of a plan against the book it was made on: the maker's order is there, on the other
      side at a crossing price, and its accounts are presented. */
  predicate LegPlanned(m: Market, orders: map<OrderKey, Order>, r: Request, key: OrderKey, planned: u64) {
    && key in orders && WellPlanned(r, planned, orders[key])
    && m.terms.caps.step > 0 && planned % m.terms.caps.step == 0
    && (if r.terms.side == 0 then orders[key].terms.price <= r.terms.price
       else r.terms.price <= orders[key].terms.price)
    && key.owner in r.participants && orders[key].terms.recipient in r.participants
    && (r.terms.side == 0 ==> orders[key].terms.Collateral() in r.touched)
  }

  function Planned(legs: seq<u64>, n: nat): nat
    requires n <= |legs|
  {
    if n == 0 then 0 else Planned(legs, n - 1) + legs[n - 1]
  }

  /** A plan as planners make them: well-formed legs, no more than the order, fees within its cap. */
  predicate PlanWellFormed(s: Chain, id: Pubkey, r: Request) {
    && id in s.books && |r.makers| == |r.plan.legs| && r.terms.side < 2
    && (forall i | 0 <= i < |r.makers| ::
          LegPlanned(s.books[id].market, s.books[id].orders, r, r.makers[i], r.plan.legs[i]))
    && Planned(r.plan.legs, |r.plan.legs|) <= r.terms.quantity
    && r.plan.takerBps <= r.terms.maxFeeBps
    && (r.terms.side == 1 ==> r.terms.Collateral() in r.touched)
  }

  /** A leg that was well planned is still well formed for the same order later. */
  predicate LegStands(m: Market, r: Request, key: OrderKey, o: Order, planned: u64) {
    && WellPlanned(r, planned, o)
    && m.terms.caps.step > 0 && planned % m.terms.caps.step == 0
    && (if r.terms.side == 0 then o.terms.price <= r.terms.price else r.terms.price <= o.terms.price)
    && key.owner in r.participants && o.terms.recipient in r.participants
    && (r.terms.side == 0 ==> o.terms.Collateral() in r.touched)
  }

  lemma LegStandsLater(states: seq<Chain>, actions: seq<Action>, i: nat, j: nat, id: Pubkey, r: Request, n: nat)
    requires Run(states, actions) && Initial(states[0]) && i <= j < |states| && PlanWellFormed(states[i], id, r)
    requires n < |r.makers| && id in states[j].books && r.makers[n] in states[j].books[id].orders
    ensures LegStands(states[j].books[id].market, r, r.makers[n], states[j].books[id].orders[r.makers[n]],
                      r.plan.legs[n])
  {
    hide Initial, Step, PermanentlyClosed, BoundNonce, OrderTerms.Collateral, OrderTerms.Accepts;
    assert LegPlanned(states[i].books[id].market, states[i].books[id].orders, r, r.makers[n], r.plan.legs[n]);
    SameOrderLater(states, actions, i, j, id, r.makers[n]);
    TermsStay(states, actions, i, j, id);
  }

  // ---------------------------------------------------- the review of such a plan

  /** A standing leg is skipped or taken, never refused: its conversion succeeds and it cannot
      round to nothing. */
  lemma StandingIsNotRefused(s: Chain, id: Pubkey, r: Request, key: OrderKey, planned: u64)
    requires Inv(s) && Entry(s, id, r).Done? && Sized(s.books[id].orders)
    requires r.plan.takerBps <= r.terms.maxFeeBps
    requires key in s.books[id].orders ==> LegStands(s.books[id].market, r, key, s.books[id].orders[key], planned)
    ensures var b := s.books[id];
            var verdict := Review(b.market, b.orders, s.traders, s.config, s.now, r, key, planned);
            && !verdict.Reject?
            && (verdict.Take? ==> WellFilled(b.market, r, b.orders, Pick(key, verdict.quantity)))
  {
    hide Inv, Entry, LegOpen, BookOk, LegsOk, Core, Caps.ValidateOrder, FramesPresented, BoundNonce, SingleBase,
      ReviewAsk, ReviewBid, OrderTerms.Collateral, OrderTerms.Accepts;
    EntryFacts(s, id, r);
    InvBook(s, id);
    var b := s.books[id];
    if key in b.orders && b.orders[key].status == LIVE {
      var o := b.orders[key];
      var quantity := Min(planned, o.remaining);
      MakerFacts(b, key);
      BookCaps(b);
      if r.terms.side == 0 {
        AskNotRefused(b.market, r, key, o, quantity);
      } else {
        BidNotRefused(b.market, r, key, o, quantity);
      }
    }
  }

  lemma AskNotRefused(m: Market, r: Request, key: OrderKey, o: Order, quantity: u64)
    requires LegsOk(m) && 1 <= o.terms.Collateral() <= m.bases && o.terms.Collateral() in r.touched
    requires LegOpen(m, o.terms.Collateral(), r.live) && quantity <= m.terms.caps.maxQuantity
    ensures ReviewAsk(m, r, key, o, quantity) == Take(quantity) || ReviewAsk(m, r, key, o, quantity) == Skip
  {
    hide LegOpen, LegsOk, OrderTerms.Collateral, RawFor;
    TouchedConverts(m, r, o.terms.Collateral(), quantity);
  }

  lemma BidNotRefused(m: Market, r: Request, key: OrderKey, o: Order, quantity: u64)
    requires var caps := m.terms.caps; caps.step > 0 && caps.tick > 0 && caps.step * caps.tick >= WAD
    requires 0 < quantity <= o.remaining <= U64_MAX && quantity % m.terms.caps.step == 0
    requires 0 < r.terms.price <= o.terms.price && o.terms.price % m.terms.caps.tick == 0
    requires Ceil(o.remaining, o.terms.price) <= U64_MAX
    ensures ReviewBid(m, r, key, o, quantity) == Take(quantity) || ReviewBid(m, r, key, o, quantity) == Skip
  {
    hide Floor, Ceil, Fill;
    NoFillRoundsToZero(m.terms.caps, quantity, o.terms.price);
    QuoteMono(quantity, o.remaining, r.terms.price, o.terms.price);
    FillSucceeds(quantity, m.terms.caps.step, o.remaining, quantity, o.terms.price, r.terms.price, true);
  }

  lemma {:induction false} PickedWithinPlan(m: Market, orders: map<OrderKey, Order>, traders: map<Pubkey, u64>,
                                            config: Config, now: int,
                         r: Request, n: nat)
    requires Sized(orders) && n <= |r.makers| == |r.plan.legs|
    ensures TotalPicked(Survivors(m, orders, traders, config, now, r, n)) <= Planned(r.plan.legs, n)
  {
    hide Review;
    if n > 0 {
      PickedWithinPlan(m, orders, traders, config, now, r, n - 1);
      var before := Survivors(m, orders, traders, config, now, r, n - 1);
      var verdict := Review(m, orders, traders, config, now, r, r.makers[n - 1], r.plan.legs[n - 1]);
      if verdict.Take? {
        ReviewTakes(m, orders, traders, config, now, r, r.makers[n - 1], r.plan.legs[n - 1], verdict.quantity);
        assert (before + [Pick(r.makers[n - 1], verdict.quantity)])[..|before|] == before;
      }
    }
  }

  lemma SizedBook(s: Chain, id: Pubkey)
    requires Inv(s) && id in s.books
    ensures Sized(s.books[id].orders)
  {
    hide Inv, BookOk, Caps.Validate, Ceil, Balanced, NonNegative;
    InvBook(s, id);
    forall k | k in s.books[id].orders
      ensures 0 <= s.books[id].orders[k].remaining <= U64_MAX
    {
      assert OrderOk(s.books[id].market, k, s.books[id].orders[k]);
    }
  }

  /** What is left to ask once a well-formed plan meets the book: enough survives, and the owner
      has the funds. */
  ghost predicate Worthwhile(s: Chain, id: Pubkey, r: Request)
    requires id in s.books && Sized(s.books[id].orders) && |r.makers| == |r.plan.legs| && r.terms.branch < 2
  {
    && r.plan.minFill <= TotalPicked(Picks(s, id, r))
    && ReservedFor(s.books[id].market, r).Ok?
    && ReservedFor(s.books[id].market, r).value <= AvailableTo(s, s.books[id], r)
    && s.books[id].market.sequence[r.terms.branch] < U64_MAX
  }

  /** What the book did since planning never breaks a well-formed plan. Planned makers that were
      filled, shrunk, cancelled or retired are skipped or capped; nothing about them can refuse
      the placement, and every fill of the survivors succeeds. */
  lemma ActivityNeverBreaksAPlan(states: seq<Chain>, actions: seq<Action>, i: nat, j: nat, id: Pubkey, r: Request)
    requires Run(states, actions) && Initial(states[0]) && i <= j < |states|
    requires PlanWellFormed(states[i], id, r) && Entry(states[j], id, r).Done?
    ensures id in states[j].books && Sized(states[j].books[id].orders) && r.terms.branch < 2
    ensures Fillable(states[j], id, r) <==> Worthwhile(states[j], id, r)
  {
    hide Initial, Step, Inv, Entry, Review, AvailableTo, ReservedFor, Survivors, LegStands, WellFilled, LegPlanned,
      Caps.ValidateOrder, LegOpen, TermsShape, FramesPresented, BoundNonce, OrderTerms.Collateral;
    var s := states[j];
    RunKeepsInv(states, actions, j);
    EntryFacts(s, id, r);
    SizedBook(s, id);
    var b := s.books[id];
    forall n | 0 <= n < |r.makers|
      ensures var verdict := Review(b.market, b.orders, s.traders, s.config, s.now, r, r.makers[n], r.plan.legs[n]);
              && !verdict.Reject?
              && (verdict.Take? ==> WellFilled(b.market, r, b.orders, Pick(r.makers[n], verdict.quantity)))
    {
      if r.makers[n] in b.orders {
        LegStandsLater(states, actions, i, j, id, r, n);
      }
      StandingIsNotRefused(s, id, r, r.makers[n], r.plan.legs[n]);
    }
    PickedWithinPlan(b.market, b.orders, s.traders, s.config, s.now, r, |r.makers|);
    forall p | p in Picks(s, id, r)
      ensures WellFilled(b.market, r, b.orders, p)
    {
      var n := PickTaken(s, id, r, p);
    }
  }

  /** An immediate-or-cancel placement of such a plan succeeds exactly when it is worthwhile and
      leaves the exposure within the caps: nothing it leaves behind can have raced. */
  lemma ImmediateOrCancelSucceeds(states: seq<Chain>, actions: seq<Action>, i: nat, j: nat, id: Pubkey, r: Request)
    requires Run(states, actions) && Initial(states[0]) && i <= j < |states|
    requires PlanWellFormed(states[i], id, r) && Entry(states[j], id, r).Done? && r.terms.tif == 1
    ensures id in states[j].books && Sized(states[j].books[id].orders) && r.terms.branch < 2
    ensures Admissible(states[j], id, r) <==>
              && Worthwhile(states[j], id, r) && Fillable(states[j], id, r)
              && CapsHold(Ended(Start(states[j], id, r), r, Trades(states[j], id, r)).book, r.owner)
  {
    hide Initial, Step, Inv, Entry, Worthwhile, Fillable, CapsHold, Ended, Trades, Ticks, Start;
    ActivityNeverBreaksAPlan(states, actions, i, j, id, r);
    RunKeepsInv(states, actions, j);
    if Fillable(states[j], id, r) {
      FillableFacts(states[j], id, r);
      TicksRecord(states[j], id, r);
    }
  }
}
