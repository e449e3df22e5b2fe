/** The place handler: it succeeds exactly when the placement is admissible, and leaves exactly
    the state the placement leaves. None of its runtime guards can refuse an admissible one. */
module PlaceHandler {
  import opened Exact
  import opened Rules
  import opened Sums
  import opened Conversion
  import opened State
  import opened Settlement
  import opened InFlight
  import opened Matching
  import opened Chain
  import opened Exchange
  import opened Placing
  import opened Completion
  import opened Positions
  import opened Releases
  import opened Custody
  import opened Pools
  import opened Governance
  import opened Protocol
  import opened Concurrency
  import opened Fills
  import opened Guards
  import opened Session
  import opened Opening

  // ------------------------------------------------------------- reviewing a plan

  /** Walks the planned makers in order, skipping stale ones and capping shrunk ones; a malformed
      leg fails the placement. */
  method ReviewPlan(m: Market, orders: map<OrderKey, Order>, traders: map<Pubkey, u64>, config: Config, now: int,
                    r: Request)
    returns (o: Outcome, picks: seq<Pick>, total: nat)
    requires Sized(orders) && |r.makers| == |r.plan.legs|
    ensures o.Done? <==>
              && (forall i | 0 <= i < |r.makers| ::
                  !Review(m, orders, traders, config, now, r, r.makers[i], r.plan.legs[i]).Reject?)
              && TotalPicked(Survivors(m, orders, traders, config, now, r, |r.makers|)) <= U64_MAX
    ensures o.Done? ==>
            picks == Survivors(m, orders, traders, config, now, r, |r.makers|) && total == TotalPicked(picks)
  {
    hide Review, Survivors, TotalPicked, Sized;
    picks, total := [], 0;
    SurvivorsStart(m, orders, traders, config, now, r);
    for i := 0 to |r.makers|
      invariant picks == Survivors(m, orders, traders, config, now, r, i) && total == TotalPicked(picks) <= U64_MAX
      invariant forall j | 0 <= j < i ::
                !Review(m, orders, traders, config, now, r, r.makers[j], r.plan.legs[j]).Reject?
    {
      var verdict := Review(m, orders, traders, config, now, r, r.makers[i], r.plan.legs[i]);
      SurvivorsNext(m, orders, traders, config, now, r, i);
      match verdict {
        case Skip =>
        case Reject(error) => return Fail(error), [], 0;
        case Take(quantity) =>
          if total + quantity > U64_MAX {
            SurvivorsGrow(m, orders, traders, config, now, r, i + 1, |r.makers|);
            return Fail(Arithmetic), [], 0;
          }
          total := total + quantity;
          picks := picks + [Pick(r.makers[i], quantity)];
      }
    }
    o := Done;
  }

  lemma SurvivorsStart(m: Market, orders: map<OrderKey, Order>, traders: map<Pubkey, u64>, config: Config, now: int,
                       r: Request)
    requires Sized(orders)
    ensures Survivors(m, orders, traders, config, now, r, 0) == [] && TotalPicked([]) == 0
  {
  }

  lemma SurvivorsNext(m: Market, orders: map<OrderKey, Order>, traders: map<Pubkey, u64>, config: Config, now: int,
                      r: Request, i: nat)
    requires Sized(orders) && i < |r.makers| == |r.plan.legs|
    ensures var before := Survivors(m, orders, traders, config, now, r, i);
            var verdict := Review(m, orders, traders, config, now, r, r.makers[i], r.plan.legs[i]);
            var after := Survivors(m, orders, traders, config, now, r, i + 1);
            && after == (if verdict.Take? then before + [Pick(r.makers[i], verdict.quantity)] else before)
            && TotalPicked(after) == TotalPicked(before) + (if verdict.Take? then verdict.quantity else 0)
  {
    hide Review, Sized;
    var before := Survivors(m, orders, traders, config, now, r, i);
    var verdict := Review(m, orders, traders, config, now, r, r.makers[i], r.plan.legs[i]);
    if verdict.Take? {
      assert (before + [Pick(r.makers[i], verdict.quantity)])[..|before|] == before;
    }
  }

  lemma {:induction false} SurvivorsGrow(m: Market, orders: map<OrderKey, Order>, traders: map<Pubkey, u64>,
                                         config: Config, now: int,
                                         r: Request, i: nat, n: nat)
    requires Sized(orders) && i <= n <= |r.makers| == |r.plan.legs|
    ensures TotalPicked(Survivors(m, orders, traders, config, now, r, i))
            <= TotalPicked(Survivors(m, orders, traders, config, now, r, n))
  {
    hide Review, Survivors, TotalPicked, Sized;
    if i < n {
      SurvivorsGrow(m, orders, traders, config, now, r, i, n - 1);
      SurvivorsNext(m, orders, traders, config, now, r, n - 1);
    }
  }

  // ----------------------------------------------------------- the settlement loop

  /** A trade depends on its maker's terms alone. */
  lemma TradeOfTerms(m: Market, n: Market, config: Config, r: Request, o: Order, p: Order, pick: Pick)
    requires o.terms == p.terms && m.legs == n.legs
    ensures TradeOf(m, config, r, o, pick) == TradeOf(n, config, r, p, pick)
  {
    hide MultiplierParts, RawUnits, SingleBase;
  }

  /** The leg of a trade is presented, and converts. */
  lemma LegConverts(m: Market, config: Config, r: Request, o: Order, p: Pick)
    requires LegsOk(m) && p.quantity <= m.terms.caps.maxQuantity
    requires TradedBase(r, o) in r.touched
    requires forall c | c in r.touched :: 1 <= c <= m.bases && LegOpen(m, c, r.live)
    ensures var t := TradeOf(m, config, r, o, p);
            && t.base in r.touched && 1 <= t.base <= MAX_BASES
            && BaseRaw(p.quantity, m.legs[t.base - 1].scale, r.live[t.base].multiplier, false) == Ok(t.raw)
  {
    hide LegsOk, LegOpen, BaseRaw, RawFor, TradedBase;
    TouchedConverts(m, r, TradedBase(r, o), p.quantity);
  }

  lemma PickTouches(m: Market, orders: map<OrderKey, Order>, traders: map<Pubkey, u64>, config: Config, now: int,
                    r: Request, key: OrderKey, planned: u64, quantity: u64)
    requires Sized(orders) && Review(m, orders, traders, config, now, r, key, planned) == Take(quantity)
    requires r.terms.side == 1 ==> r.terms.Collateral() in r.touched
    requires r.terms.side < 2
    ensures key in orders && orders[key].status == LIVE && TradedBase(r, orders[key]) in r.touched
            && quantity <= orders[key].remaining
  {
    hide OrderTerms.Collateral, BaseRaw, ReviewBid, WellPlanned;
    ReviewTakes(m, orders, traders, config, now, r, key, planned, quantity);
  }

  lemma TradeConverts(s: Chain, id: Pubkey, r: Request, p: Pick)
    requires Inv(s) && Fillable(s, id, r) && p in Picks(s, id, r)
    ensures p.key in s.books[id].orders
    ensures var t := TradeOf(s.books[id].market, s.config, r, s.books[id].orders[p.key], p);
            && t.base in r.touched && 1 <= t.base <= MAX_BASES
            && BaseRaw(p.quantity, s.books[id].market.legs[t.base - 1].scale, r.live[t.base].multiplier, false)
               == Ok(t.raw)
  {
    hide Inv, Entry, Fillable, Picks, LegOpen, BookOk, SingleBase, BoundNonce, OrderTerms.Collateral, FramesPresented,
      TermsShape, LegsOk, Core, Caps.ValidateOrder, BaseRaw, Review, TradeOf, TradedBase;
    FillableFacts(s, id, r);
    EntryFacts(s, id, r);
    TakerSide(s, id, r);
    InvBook(s, id);
    var b := s.books[id];
    var i := PickTaken(s, id, r, p);
    PickTouches(b.market, b.orders, s.traders, s.config, s.now, r, p.key, r.plan.legs[i], p.quantity);
    MakerFacts(b, p.key);
    LegConverts(b.market, s.config, r, b.orders[p.key], p);
  }

  /** The reviewed makers, as the trades they are settled as, against a book that has them. */
  ghost predicate PlanStands(b: Book, r: Request, config: Config, picks: seq<Pick>, trades: seq<Trade>) {
    && |picks| == |trades| && r.terms.side < 2 && r.Key() in b.orders && b.orders[r.Key()].terms == r.terms
    && forall i | 0 <= i < |picks| :: PickStands(b, r, config, picks[i], trades[i])
  }

  ghost predicate PickStands(b: Book, r: Request, config: Config, p: Pick, t: Trade) {
    && p.key in b.orders && t == TradeOf(b.market, config, r, b.orders[p.key], p)
    && t.base in r.touched && 1 <= t.base <= MAX_BASES
    && BaseRaw(p.quantity, b.market.legs[t.base - 1].scale, r.live[t.base].multiplier, false) == Ok(t.raw)
  }

  lemma PickStaysPlanned(b: Book, c: Book, r: Request, config: Config, picks: seq<Pick>, trades: seq<Trade>, i: nat)
    requires PlanStands(b, r, config, picks, trades) && SameAccounts(b, c) && i < |picks|
    requires Matches(c, trades[i]) && Settleable(c, trades[i])
    ensures PlannedFill(c, r, config, picks[i].key, picks[i].quantity, trades[i]) && trades[i].base in r.touched
  {
    hide TradeOf, BaseRaw, Matches, Settleable;
    assert PickStands(b, r, config, picks[i], trades[i]);
    TradeOfTerms(b.market, c.market, config, r, b.orders[picks[i].key], c.orders[picks[i].key], picks[i]);
  }

  /** One turn of the settlement loop keeps what the next turns need. */
  lemma TurnKeeps(o: Book, r: Request, f: Flight, trades: seq<Trade>, i: nat, scale: nat, parts: Parts,
                  presented: set<nat>)
    requires Steady(f) && i < |trades| && Queued(f.book, r, trades[i..], scale, parts)
    requires SameAccounts(o, f.book) && OwedWithin(f.minted, presented)
    requires trades[i].base in presented && QUOTE in presented
    ensures Matches(f.book, trades[i]) && Settleable(f.book, trades[i])
    ensures var g := SettleNext(f, trades[i]);
            && Steady(g) && Queued(g.book, r, trades[i + 1..], scale, parts)
            && SameAccounts(o, g.book) && OwedWithin(g.minted, presented)
            && SettleAll(f, trades[i..]) == SettleAll(g, trades[i + 1..])
  {
    hide Queued, Core, Backed, Bounded, Matches, Settleable, Settle, SettleMints, OwedWithin, Market.Payouts,
      SameAccounts;
    var rest := trades[i..];
    assert rest[0] == trades[i] && rest[1..] == trades[i + 1..];
    NextMatches(f.book, r, rest, scale, parts);
    SettleKeepsBooks(f.book, f.minted, rest[0]);
    SettleKeepsQueue(f.book, r, rest, scale, parts);
    OwedStays(f.book, f.minted, rest[0], presented);
    AccountsTransitive(o, f.book, SettleNext(f, rest[0]).book);
  }

  lemma AccountsTransitive(a: Book, b: Book, c: Book)
    requires SameAccounts(a, b) && SameAccounts(b, c)
    ensures SameAccounts(a, c)
  {
  }

  lemma HeadMatches(f: Flight, r: Request, trades: seq<Trade>, i: nat, scale: nat, parts: Parts)
    requires Steady(f) && i < |trades| && Queued(f.book, r, trades[i..], scale, parts)
    ensures Matches(f.book, trades[i]) && Settleable(f.book, trades[i])
  {
    hide Core, Backed, Bounded, Queued, Matches, Settleable, Market.Payouts;
    assert trades[i..][0] == trades[i];
    NextMatches(f.book, r, trades[i..], scale, parts);
  }

  lemma SettleEnds(f: Flight, trades: seq<Trade>)
    ensures trades[0..] == trades && SettleAll(f, trades[|trades|..]) == f
    ensures SameAccounts(f.book, f.book)
  {
    hide SettleNext;
  }

  /** Everything the settlement loop relies on when it starts. */
  ghost predicate ReadyToSettle(f: Flight, r: Request, config: Config, picks: seq<Pick>, trades: seq<Trade>,
                                scale: nat, parts: Parts,
                                presented: set<nat>) {
    && Steady(f) && Queued(f.book, r, trades, scale, parts)
    && PlanStands(f.book, r, config, picks, trades) && OwedWithin(f.minted, presented) && presented == r.Custody()
  }

  /** Settles the reviewed makers one by one. No check of any fill fails: the review computed the
      same amounts. */
  method SettlePicks(session: Session, r: Request, config: Config, picks: seq<Pick>, presented: set<nat>,
                     ghost trades: seq<Trade>, ghost scale: nat, ghost parts: Parts)
    requires ReadyToSettle(session.InFlight(), r, config, picks, trades, scale, parts, presented)
    modifies session
    ensures session.InFlight() == SettleAll(old(session.InFlight()), trades)
    ensures OwedWithin(session.minted, presented)
  {
    hide Queued, Steady, PlanStands, PlannedFill, SettleNext, SettleAll, OwedWithin, SameAccounts, Matches, Settleable;
    ghost var start := session.InFlight();
    SettleEnds(start, trades);
    SamePlan(start.book, r, config, picks, trades);
    for i := 0 to |picks|
      invariant |trades| == |picks|
      invariant Steady(session.InFlight()) && Queued(session.Image(), r, trades[i..], scale, parts)
      invariant SameAccounts(start.book, session.Image()) && OwedWithin(session.minted, presented)
      invariant SettleAll(session.InFlight(), trades[i..]) == SettleAll(start, trades)
    {
      HeadMatches(session.InFlight(), r, trades, i, scale, parts);
      PickStaysPlanned(start.book, session.Image(), r, config, picks, trades, i);
      TurnKeeps(start.book, r, session.InFlight(), trades, i, scale, parts, presented);
      session.FillMaker(r, config, picks[i].key, picks[i].quantity, trades[i]);
    }
    SettleEnds(session.InFlight(), trades);
  }

  lemma SamePlan(b: Book, r: Request, config: Config, picks: seq<Pick>, trades: seq<Trade>)
    requires PlanStands(b, r, config, picks, trades)
    ensures |picks| == |trades|
  {
  }

  // ----------------------------------------------------------- the placement's plan

  lemma StartOwesNothing(s: Chain, id: Pubkey, r: Request)
    requires Fillable(s, id, r)
    ensures OwedWithin(Start(s, id, r).minted, r.Custody())
  {
    hide Fillable, Opened;
  }

  lemma StartOrders(s: Chain, id: Pubkey, r: Request)
    requires Fillable(s, id, r)
    ensures Start(s, id, r).book.orders == s.books[id].orders[r.Key() := TakerOrder(s, id, r)]
    ensures TakerOrder(s, id, r).terms == r.terms && Start(s, id, r).book.market.legs == s.books[id].market.legs
    ensures r.Key() !in s.books[id].orders
  {
    hide Fillable, Opened;
    FreshKey(s, id, r);
  }

  lemma PickAt(s: Chain, id: Pubkey, r: Request, i: nat)
    requires id in s.books && Sized(s.books[id].orders) && |r.makers| == |r.plan.legs| && i < |Picks(s, id, r)|
    ensures var p := Picks(s, id, r)[i];
            && p in Picks(s, id, r) && p.key in s.books[id].orders && i < |Trades(s, id, r)|
            && Trades(s, id, r)[i] == TradeOf(s.books[id].market, s.config, r, s.books[id].orders[p.key], p)
  {
    hide Survivors, TradeOf;
  }

  /** The reviewed makers stand as the trades of the placement. */
  lemma StartStands(s: Chain, id: Pubkey, r: Request)
    requires Inv(s) && Fillable(s, id, r)
    ensures PlanStands(Start(s, id, r).book, r, s.config, Picks(s, id, r), Trades(s, id, r))
  {
    hide Inv, Fillable, Start, Survivors, TradeOf, TakerOrder, BaseRaw;
    FillableFacts(s, id, r);
    StartOrders(s, id, r);
    TakerSide(s, id, r);
    var o, picks, trades := Start(s, id, r).book, Picks(s, id, r), Trades(s, id, r);
    forall i | 0 <= i < |picks|
      ensures PickStands(o, r, s.config, picks[i], trades[i])
    {
      PickAt(s, id, r, i);
      TradeConverts(s, id, r, picks[i]);
      TradeOfTerms(s.books[id].market, o.market, s.config, r, s.books[id].orders[picks[i].key], o.orders[picks[i].key],
                   picks[i]);
    }
  }

  // ------------------------------------------------------ deciding a placement

  /** What the owner has available is what its hydrated wallet shows. */
  lemma AvailableIs(s: Chain, id: Pubkey, r: Request)
    requires Inv(s) && Entry(s, id, r).Done?
    ensures FramesOk(s.credits, s.books[id], r.frames) && r.owner in s.books[id].wallets && r.terms.Asset() < ASSETS
    ensures Hydrated(s, id, r).wallets[r.owner].balances[r.terms.Asset()] == AvailableTo(s, s.books[id], r)
  {
    hide Inv, Entry, BookOk, LegOpen, FramesPresented, TermsShape, SingleBase, BoundNonce, OrderTerms.Collateral,
      Caps.ValidateOrder, FramesOk, HydrateAll, OrderTermsOk, LegsOk, Core, AvailableTo, OrderTerms.Asset;
    EntryFacts(s, id, r);
    InvBook(s, id);
    FramesLoad(s, id, r);
    TakerTerms(s, id, r);
    BranchOf(s, id, r);
    AvailableAt(s, s.books[id], r);
  }

  lemma BranchOf(s: Chain, id: Pubkey, r: Request)
    requires Entry(s, id, r).Done?
    ensures r.terms.branch < 2 && r.terms.funding < 2 && r.terms.tif < 2 && r.terms.side < 2
  {
    hide LegOpen, SingleBase, BoundNonce, Caps.ValidateOrder, FramesPresented;
  }

  lemma AvailableAt(s: Chain, b: Book, r: Request)
    requires BookOk(b) && FramesOk(s.credits, b, r.frames) && r.owner in b.wallets && r.terms.Asset() < ASSETS
    requires r.terms.branch < 2 && r.terms.Collateral() < COLLATERALS
    ensures HydrateAll(b, r.frames, Available(s.credits, b, r.frames),
                       |r.frames|).wallets[r.owner].balances[r.terms.Asset()]
            == AvailableTo(s, b, r)
  {
    hide Core, Backed, LegsOk, LifecycleOk, ExposureCapped, UnlistedEmpty, OnlyResting, OrderTerms.Collateral,
      HydrateAll;
    var available := Available(s.credits, b, r.frames);
    var f := Frame(r.owner, r.terms.Collateral());
    if r.terms.funding == 0 && f in r.frames {
      var i :| 0 <= i < |r.frames| && r.frames[i] == f;
      HydrateFeeds(b, r.frames, available, |r.frames|, i);
    } else {
      forall i | 0 <= i < |r.frames|
        ensures !Feeds(r.frames[i], r.owner, r.terms.Asset())
      {
        if r.terms.funding != 0 {
          ClaimIsNotFed(r.terms, r.frames[i]);
        } else {
          assert r.frames[i] in r.frames && r.frames[i] != f;
        }
      }
      HydrateSkips(b, r.frames, available, |r.frames|, r.owner, r.terms.Asset());
    }
  }

  /** With the plan reviewed and the reservation known, only funds and the sequence are left. */
  lemma FillableWhen(s: Chain, id: Pubkey, r: Request)
    requires Entry(s, id, r).Done? && Sized(s.books[id].orders) && |r.makers| == |r.plan.legs| && r.terms.branch < 2
    requires Reviewed(s, id, r)
             && (forall p | p in Picks(s, id, r) :: WellFilled(s.books[id].market, r, s.books[id].orders, p))
    requires ReservedFor(s.books[id].market, r).Ok?
    ensures Fillable(s, id, r) <==>
              && AvailableTo(s, s.books[id], r) >= ReservedFor(s.books[id].market, r).value
              && s.books[id].market.sequence[r.terms.branch] < U64_MAX
  {
    hide Entry, Reviewed, ReservedFor, AvailableTo, WellFilled;
  }

  lemma FillableNeeds(s: Chain, id: Pubkey, r: Request)
    requires Fillable(s, id, r)
    ensures Reviewed(s, id, r)
            && (forall p | p in Picks(s, id, r) :: WellFilled(s.books[id].market, r, s.books[id].orders, p))
    ensures Entry(s, id, r).Done? && ReservedFor(s.books[id].market, r).Ok?
  {
    hide Entry, Reviewed, ReservedFor, AvailableTo, WellFilled;
  }

  /** The frames of a presented request load into its market. */
  lemma FramesReady(s: Chain, id: Pubkey, frames: seq<Frame>)
    requires Inv(s) && id in s.books && FramesOk(s.credits, s.books[id], frames)
    ensures var b, available := s.books[id], Available(s.credits, s.books[id], frames);
            && FramesIn(b, frames) && Distinct(frames) && Core(b) && Drained(b)
            && (forall x | x in available :: x >= 0)
            && Bounded(HydrateAll(b, frames, available, |frames|)) && Core(HydrateAll(b, frames, available, |frames|))
  {
    hide AccountsOk, PoolsBalanced, Core, Backed, Bounded, LegsOk, LifecycleOk, ExposureCapped, UnlistedEmpty,
      OnlyResting, HydrateAll, Framed, Drained, KeyOf;
    InvBook(s, id);
    FramesAreIn(s.credits, s.books[id], frames);
    HydratedKeeps(s, id, frames);
    assert BookOk(s.books[id]);
    forall x | x in Available(s.credits, s.books[id], frames)
      ensures x >= 0
    {
      var i :| 0 <= i < |frames| && Available(s.credits, s.books[id], frames)[i] == x;
      assert frames[i] in frames;
      CreditsNonNegative(s, KeyOf(s.books[id].market, frames[i]));
    }
  }

  /** The taker's order can be opened if its owner can pay for it. */
  lemma OpeningReady(s: Chain, id: Pubkey, r: Request)
    requires Inv(s) && Entry(s, id, r).Done?
    ensures FramesOk(s.credits, s.books[id], r.frames)
    ensures var h := Hydrated(s, id, r);
            && r.owner in h.wallets && OrderKey(r.owner, r.terms.salt) !in h.orders && r.terms.Asset() < ASSETS
            && r.terms.branch < 2
            && h.wallets[r.owner].balances[r.terms.Asset()] <= h.ledgers.credits[r.terms.Asset()]
            && h.wallets[r.owner].balances[r.terms.Asset()] == AvailableTo(s, s.books[id], r)
            && h.market.sequence[r.terms.branch] == s.books[id].market.sequence[r.terms.branch]
  {
    hide Inv, Entry, LegOpen, FramesPresented, TermsShape, SingleBase, BoundNonce, Caps.ValidateOrder, FramesOk,
      HydrateAll, Core, AvailableTo, OrderTerms.Asset, Drained, Bounded;
    EntryFacts(s, id, r);
    AvailableIs(s, id, r);
    FramesReady(s, id, r.frames);
    BranchOf(s, id, r);
    BalanceInCredits(Hydrated(s, id, r), r.owner, r.terms.Asset());
  }

  lemma OpenedIs(s: Chain, id: Pubkey, r: Request)
    requires Fillable(s, id, r)
    ensures var h := Hydrated(s, id, r);
            && r.owner in h.wallets && r.Key() !in h.orders && r.terms.Asset() < ASSETS && r.terms.branch < 2
            && h.market.sequence[r.terms.branch] < U64_MAX
            && Opened(s, id, r) == Reserve(h, r.owner, r.terms, ReservedFor(s.books[id].market, r).value,
                                           Ceil(r.terms.quantity, r.terms.price))
  {
    hide Fillable, Hydrated, Reserve, ReservedFor, Ceil, FramesOk, OrderTerms.Asset;
    FillableFacts(s, id, r);
    FramesLoad(s, id, r);
    FreshKey(s, id, r);
    TakerTerms(s, id, r);
    var o := Opened(s, id, r);
  }

  /** A session that has settled the plan. */
  ghost predicate IsSettled(f: Flight, s: Chain, id: Pubkey, r: Request)
    requires Fillable(s, id, r)
  {
    f == Settled(s, id, r) && OwedWithin(f.minted, r.Custody())
  }

  /** Loads the frames, reviews the plan, opens the taker's order and settles the fills. */
  method FillPlacement(session: Session, s: Chain, id: Pubkey, r: Request) returns (o: Outcome)
    requires Inv(s) && Entry(s, id, r).Done? && session.Image() == s.books[id] && session.minted == NO_AMOUNTS
    modifies session
    ensures o.Done? <==> Fillable(s, id, r)
    ensures o.Done? ==> IsSettled(session.InFlight(), s, id, r)
  {
    hide Inv, Entry, Fillable, Review, Survivors, TotalPicked, WellFilled, ReservedFor, AvailableTo, FramesOk, FramesIn,
      Distinct, Core, Drained, Bounded, HydrateAll, Reserve, Opened, Trades, ReadyToSettle, OwedWithin, Ceil,
      OrderTerms.Asset, OrderTerms.Collateral, Caps.ValidateOrder, SettleAll, Settled;
    EntryShape(s, id, r);
    SizedBook(s, id);
    OpeningReady(s, id, r);
    FramesReady(s, id, r.frames);
    if Fillable(s, id, r) { FillableNeeds(s, id, r); }
    var b := s.books[id];
    session.HydrateFrames(r.frames, Available(s.credits, b, r.frames));
    var picks, total;
    o, picks, total := ReviewPlan(b.market, b.orders, s.traders, s.config, s.now, r);
    if o.Fail? { return; }
    if total > r.terms.quantity { return Fail(ProtocolError.InvalidTerms); }
    if total < r.plan.minFill { return Fail(StalePlan); }
    if r.terms.side == 1 && r.terms.Collateral() !in r.touched { return Fail(InvalidAccount); }
    // Each fill's own shape check, made here before any of them settles.
    if !(forall p | p in picks :: WellFilled(b.market, r, b.orders, p)) { return Fail(ProtocolError.InvalidTerms); }
    var reserved := ReservedFor(b.market, r);
    if reserved.Err? { return Checked(reserved); }
    OpeningFits(s, id, r);
    FillableWhen(s, id, r);
    if Fillable(s, id, r) { OpenedIs(s, id, r); }
    o := session.OpenOrder(r.owner, r.terms, reserved.value, Ceil(r.terms.quantity, r.terms.price));
    if o.Fail? { return; }
    FillReady(s, id, r);
    SettlePicks(session, r, s.config, picks, r.Custody(), Trades(s, id, r), ScaleOf(b.market, r), PartsOf(r));
  }

  lemma EntryShape(s: Chain, id: Pubkey, r: Request)
    requires Entry(s, id, r).Done?
    ensures id in s.books && |r.makers| == |r.plan.legs| && r.terms.branch < 2 && r.terms.side < 2 && r.terms.tif < 2
  {
    hide LegOpen, SingleBase, BoundNonce, Caps.ValidateOrder, FramesPresented;
  }

  /** The settlement loop may start, and ends with the plan settled. */
  ghost predicate PlanReady(s: Chain, id: Pubkey, r: Request)
    requires Fillable(s, id, r)
  {
    var start := Flight(Opened(s, id, r), NO_AMOUNTS);
    && ReadyToSettle(start, r, s.config, Picks(s, id, r), Trades(s, id, r), ScaleOf(s.books[id].market, r), PartsOf(r),
                     r.Custody())
    && Settled(s, id, r) == SettleAll(start, Trades(s, id, r))
  }

  lemma FillReady(s: Chain, id: Pubkey, r: Request)
    requires Inv(s) && Fillable(s, id, r)
    ensures PlanReady(s, id, r)
  {
    hide Inv, Fillable, Opened, SettleAll, Queued, Steady, PlanStands, OwedWithin, Trades, Survivors, Framed,
      OnlyRestingBut;
    FillableFacts(s, id, r);
    StartReady(s, id, r);
    StartStands(s, id, r);
    StartOwesNothing(s, id, r);
  }

  // ----------------------------------------------------- release, record, caps

  /** What the handler finds once the plan is settled. */
  ghost predicate SettledFacts(s: Chain, id: Pubkey, r: Request)
    requires Fillable(s, id, r)
  {
    var f, m := Settled(s, id, r), s.books[id].market;
    && Steady(f) && Entered(f.book, r)
    && f.book.orders[r.Key()].sequence == m.sequence[r.terms.branch]
    && f.book.market.recent == m.recent && f.book.market.terms == m.terms
    && (f.book.orders[r.Key()].remaining != 0 ==> f.book.orders[r.Key()].status == LIVE)
    && (Rests(s, id, r) <==> r.terms.tif == 0 && f.book.orders[r.Key()].status == LIVE)
    && (r.terms.tif == 1 && f.book.orders[r.Key()].remaining == 0 ==> f.book.orders[r.Key()].status != LIVE)
    && Ended(Start(s, id, r), r, Trades(s, id, r)) == Flight(Finished(f.book, r), f.minted)
  }

  lemma SettledIsKnown(s: Chain, id: Pubkey, r: Request)
    requires Inv(s) && Fillable(s, id, r)
    ensures SettledFacts(s, id, r)
  {
    hide Inv, Fillable, Opened, SettleAll, Queued, Steady, Trades, Survivors, Framed, OnlyRestingBut, Finished,
      TotalPicked, Total, SameAccounts, Entered;
    FillableFacts(s, id, r);
    StartReady(s, id, r);
    TakerAfter(Start(s, id, r), r, Trades(s, id, r), ScaleOf(s.books[id].market, r), PartsOf(r));
    TotalOfTrades(s, id, r);
    TakerStarts(s, id, r);
    EntryDone(s, id, r);
    BranchOf(s, id, r);
  }

  lemma EntryDone(s: Chain, id: Pubkey, r: Request)
    requires Fillable(s, id, r)
    ensures Entry(s, id, r).Done?
  {
    hide Entry, Reviewed, ReservedFor, AvailableTo, WellFilled;
  }

  /** A taker's order is live exactly while something of it remains. */
  lemma TakerAfter(o: Flight, r: Request, trades: seq<Trade>, scale: nat, parts: Parts)
    requires Steady(o) && Queued(o.book, r, trades, scale, parts) && Framed(o.book, r.frames) && Entered(o.book, r)
    requires o.book.orders[r.Key()].status == LIVE
    ensures var g, before := SettleAll(o, trades), o.book.orders[r.Key()];
            && Steady(g) && Entered(g.book, r) && g.book.market == o.book.market
            && var after := g.book.orders[r.Key()];
            && after.sequence == before.sequence && after.remaining == before.remaining - Total(trades)
            && (after.status == LIVE <==> after.remaining != 0) && after.remaining >= 0
            && Ended(o, r, trades) == Flight(Finished(g.book, r), g.minted)
  {
    hide Queued, Steady, SettleAll, Finished, Framed, TakerReady, OrderTerms.Asset;
    SettleAllKeeps(o, r, trades, scale, parts);
    SettleAllFillsTaker(o, r, trades, scale, parts);
    SteadyParts(SettleAll(o, trades));
    LiveOrFilled(SettleAll(o, trades).book, r.Key());
  }

  lemma LiveOrFilled(b: Book, k: OrderKey)
    requires Core(b) && k in b.orders
    ensures b.orders[k].remaining != 0 ==> b.orders[k].status == LIVE
    ensures b.orders[k].remaining == 0 ==> b.orders[k].status != LIVE
    ensures b.orders[k].remaining >= 0
  {
    hide Balanced, NonNegative, Caps.ValidateOrder, Ceil;
    assert OrderOk(b.market, k, b.orders[k]);
  }

  lemma TakerStarts(s: Chain, id: Pubkey, r: Request)
    requires Fillable(s, id, r)
    ensures var t := Start(s, id, r).book.orders[r.Key()];
            && t.status == LIVE && t.remaining == r.terms.quantity
            && t.sequence == s.books[id].market.sequence[r.terms.branch]
    ensures Start(s, id, r).book.market.recent == s.books[id].market.recent
    ensures Start(s, id, r).book.market.terms == s.books[id].market.terms
  {
    hide Fillable, Opened;
  }

  /** Whether the caps still hold and what rests has not raced, given the finished books. */
  lemma AdmissibleWhen(s: Chain, id: Pubkey, r: Request)
    requires Inv(s) && Fillable(s, id, r)
    ensures Ticks(s.books[id].market, r.terms.price) <= U64_MAX
    ensures var e := Ended(Start(s, id, r), r, Trades(s, id, r)).book;
            var m := s.books[id].market;
            && Steady(Settled(s, id, r)) && Entered(e, r) && e.market.recent == m.recent && e.market.terms == m.terms
            && (Resting(e, r) <==> Rests(s, id, r)) && e == Finished(Settled(s, id, r).book, r)
            && e.orders[r.Key()].sequence == m.sequence[r.terms.branch]
            && (Admissible(s, id, r) <==>
                  && (Resting(e, r) ==>
                        RaceFree(RECENT, r.plan.nextSequence, m.sequence[r.terms.branch], r.terms.side,
                                 Ticks(m, r.terms.price), RingOf(m, r.terms.branch)).Ok?)
                  && CapsHold(e, r.owner))
  {
    hide Inv, Fillable, Opened, Trades, Survivors, TotalPicked, RaceFree, RingOf, Ticks, CapsHold, Settled, Ended,
      Steady, Release, OrderTerms.Asset, Rests;
    FillableFacts(s, id, r);
    TicksRecord(s, id, r);
    SettledIsKnown(s, id, r);
    EntryDone(s, id, r);
    BranchOf(s, id, r);
  }

  /** The checks of finished books: what rests has not raced, and the caps hold. */
  ghost predicate FinishOk(e: Book, r: Request)
    requires Entered(e, r) && 0 <= e.orders[r.Key()].sequence <= U64_MAX
  {
    && (Resting(e, r) ==>
          RaceFree(RECENT, r.plan.nextSequence, e.orders[r.Key()].sequence, r.terms.side,
                   Ticks(e.market, r.terms.price),
                   RingOf(e.market, r.terms.branch)).Ok?)
    && CapsHold(e, r.owner)
  }

  lemma FinishKeepsSequence(b: Book, r: Request)
    requires Entered(b, r)
    ensures Entered(Finished(b, r), r) && Finished(b, r).orders[r.Key()].sequence == b.orders[r.Key()].sequence
  {
    hide OrderTerms.Asset;
  }

  /** Releases a leftover that may not rest, refuses a resting one that raced, checks the exposure
      caps and records the placement. */
  method FinishPlacement(session: Session, r: Request) returns (o: Outcome)
    requires Steady(session.InFlight()) && Entered(session.Image(), r)
    requires session.orders[r.Key()].remaining != 0 ==> session.orders[r.Key()].status == LIVE
    requires 0 <= session.orders[r.Key()].sequence <= U64_MAX && Ticks(session.market, r.terms.price) <= U64_MAX
    modifies session
    ensures Entered(Finished(old(session.Image()), r), r)
    ensures Finished(old(session.Image()), r).orders[r.Key()].sequence == old(session.orders[r.Key()].sequence)
    ensures o.Done? <==> FinishOk(Finished(old(session.Image()), r), r)
    ensures o.Done? ==>
              session.InFlight() == Flight(Recorded(Finished(old(session.Image()), r), r,
                                                    old(session.orders[r.Key()].sequence)),
                                           old(session.minted))
  {
    hide Steady, Finished, RaceFree, RingOf, Ticks, CapsHold, Recorded, OrderTerms.Asset;
    FinishKeepsSequence(session.Image(), r);
    session.ReleaseLeftover(r);
    var order := session.orders[r.Key()];
    var ticks := Ticks(session.market, r.terms.price);
    if order.status == LIVE {
      var race := RaceFree(RECENT, r.plan.nextSequence, order.sequence, r.terms.side, ticks,
                           RingOf(session.market, r.terms.branch));
      if race.Err? { return Checked(race); }
    }
    CapsAre(session.Image(), r.owner);
    var capped := session.market.terms.caps.FinalExposure(session.wallets[r.owner].openNotional,
                                                          session.ledgers.openNotional);
    if capped.Err? { return Checked(capped); }
    session.Record(r, order.sequence, ticks);
    o := Done;
  }

  lemma SameRingOf(m: Market, n: Market, branch: nat)
    requires branch < 2 && m.recent == n.recent
    ensures RingOf(m, branch) == RingOf(n, branch)
  {
  }

  lemma CapsAre(b: Book, owner: Pubkey)
    requires owner in b.wallets
    ensures CapsHold(b, owner) <==>
            b.market.terms.caps.FinalExposure(b.wallets[owner].openNotional, b.ledgers.openNotional).Ok?
  {
  }

  // ------------------------------------------------------------- closing guards

  /** What a market owes in a presented collateral, once its frames are loaded, is in the pool. */
  lemma HydratedWithinPool(s: Chain, id: Pubkey, frames: seq<Frame>, c: nat)
    requires Inv(s) && id in s.books && FramesOk(s.credits, s.books[id], frames)
    requires c < COLLATERALS && c <= s.books[id].market.bases
    ensures FramesIn(s.books[id], frames) && s.books[id].market.mints[c] in s.pools
    ensures HydrateAll(s.books[id], frames, Available(s.credits, s.books[id], frames),
                       |frames|).ledgers.Liability(Underlying(c))
            <= s.pools[s.books[id].market.mints[c]].vault
  {
    hide AccountsOk, PoolsBalanced, Core, Backed, LifecycleOk, ExposureCapped, UnlistedEmpty, OnlyResting, Drained,
      Ledgers.Liability, HydrateAll, KeyOf, Demand, Bounded, Framed;
    var b := s.books[id];
    assert BookOk(b) && Anchored(s, b);
    var mint := b.market.mints[c];
    FramesAreIn(s.credits, b, frames);
    HydratedKeeps(s, id, frames);
    HydrateMovesDemand(s.credits, b, frames, mint, |frames|);
    AllCreditsNonNegative(s);
    DrawnWithinCredit(s.credits, b, frames, mint);
    PoolHolds(s, id, mint);
    PoolSolvent(s, mint);
    ShareFits(HydrateAll(b, frames, Available(s.credits, b, frames), |frames|), mint, c);
  }

  lemma PoolSolvent(s: Chain, mint: Pubkey)
    requires Inv(s) && mint in s.pools
    ensures s.pools[mint].liability <= s.pools[mint].vault
  {
    hide PoolsBalanced, BooksOk;
  }

  lemma AllCreditsNonNegative(s: Chain)
    requires Inv(s)
    ensures forall k | k in s.credits :: s.credits[k] >= 0
  {
    hide PoolsBalanced, BooksOk;
  }

  /** Books whose owed tokens may be minted, and that owe the pools what the start did. */
  ghost predicate ReadyToMint(b: Book, minted: Amounts, frames: seq<Frame>, start: Book) {
    && Core(b) && b.market.Payouts().None? && Core(MintAll(b, minted)) && Backed(MintAll(b, minted), NO_AMOUNTS)
    && Framed(MintAll(b, minted), frames) && Liabilities(b) == Liabilities(start)
  }

  /** Every presented collateral is listed, and its pool's vault covers what the books owe in it. */
  ghost predicate VaultsCover(pools: map<Pubkey, Pool>, b: Book, presented: set<nat>) {
    forall c | c in presented ::
      && c < COLLATERALS && c <= b.market.bases && b.market.mints[c] in pools
      && b.ledgers.Liability(Underlying(c)) <= pools[b.market.mints[c]].vault
  }

  /** The books a placement closes with: mints, guards and flush all pass. */
  ghost predicate ClosingFacts(s: Chain, id: Pubkey, r: Request, e: Flight)
    requires Fillable(s, id, r)
  {
    var m := s.books[id].market;
    && r.terms.branch < 2 && Ticks(m, r.terms.price) <= U64_MAX && Ticks(e.book.market, r.terms.price) <= U64_MAX
    && var b := Recorded(e.book, r, m.sequence[r.terms.branch]);
    && ReadyToMint(b, e.minted, r.frames, Start(s, id, r).book)
    && Closing(s, id, r) == MintAll(b, e.minted)
    && VaultsCover(s.pools, b, r.Custody())
    && b.market.mints == m.mints
  }

  /** Recording moves nothing, so it stays as sound as what it records. */
  lemma RecordedSound(f: Flight, r: Request, sequence: nat)
    requires Steady(f) && Framed(f.book, r.frames) && r.terms.branch < 2
             && Ticks(f.book.market, r.terms.price) <= U64_MAX
    ensures var b := Recorded(f.book, r, sequence);
            && Core(b) && b.market.Payouts().None? && Core(MintAll(b, f.minted))
            && Backed(MintAll(b, f.minted), NO_AMOUNTS)
            && Framed(MintAll(b, f.minted), r.frames) && b.ledgers == f.book.ledgers
  {
    hide Core, Backed, Bounded, Recorded, Framed, MintAll, Ticks, Market.Payouts;
    RecordedKeeps(f, r, sequence);
    MintKeeps(Flight(Recorded(f.book, r, sequence), f.minted));
    MintLeaves(Recorded(f.book, r, sequence), f.minted, r.frames);
  }

  lemma EndedSound(s: Chain, id: Pubkey, r: Request)
    requires Inv(s) && Fillable(s, id, r)
    ensures var o, e := Start(s, id, r), Ended(Start(s, id, r), r, Trades(s, id, r));
            && Steady(e) && Framed(e.book, r.frames)
            && (forall c | 0 <= c < COLLATERALS ::
                e.book.ledgers.Liability(Underlying(c)) == o.book.ledgers.Liability(Underlying(c)))
  {
    hide Inv, Fillable, Opened, Trades, Queued, Steady, Framed, OnlyRestingBut, Ended, Ledgers.Liability, Entered,
      Survivors;
    FillableFacts(s, id, r);
    StartReady(s, id, r);
    EndedKeeps(Start(s, id, r), r, Trades(s, id, r), ScaleOf(s.books[id].market, r), PartsOf(r));
  }

  lemma PresentedListed(s: Chain, id: Pubkey, r: Request, c: nat)
    requires Entry(s, id, r).Done? && c in r.Custody()
    ensures c < COLLATERALS && c <= s.books[id].market.bases
  {
    hide Entry, LegOpen, SingleBase, BoundNonce, Caps.ValidateOrder, FramesPresented, TermsShape;
    EntryFacts(s, id, r);
  }

  lemma StartLiability(s: Chain, id: Pubkey, r: Request, c: nat)
    requires Inv(s) && Fillable(s, id, r) && c in r.Custody()
    ensures c < COLLATERALS && c <= s.books[id].market.bases && s.books[id].market.mints[c] in s.pools
    ensures Start(s, id, r).book.ledgers.Liability(Underlying(c)) <= s.pools[s.books[id].market.mints[c]].vault
  {
    hide Inv, Fillable, Opened, Ledgers.Liability, HydrateAll, FramesOk, Entry, Steady, Framed;
    FillableFacts(s, id, r);
    PresentedListed(s, id, r, c);
    FramesLoad(s, id, r);
    OpenedKeeps(s, id, r);
    HydratedWithinPool(s, id, r.frames, c);
  }

  lemma ClosingIsKnown(s: Chain, id: Pubkey, r: Request)
    requires Inv(s) && Fillable(s, id, r)
    ensures Ticks(s.books[id].market, r.terms.price) <= U64_MAX
    ensures ClosingFacts(s, id, r, Ended(Start(s, id, r), r, Trades(s, id, r)))
  {
    hide Inv, Fillable, Opened, Trades, Steady, Framed, Ended, Ledgers.Liability, Entered, Survivors, Ticks, Recorded,
      MintAll, Core, Backed, Liabilities, Market.Payouts;
    FillableFacts(s, id, r);
    TicksRecord(s, id, r);
    EndedSound(s, id, r);
    var o, e := Start(s, id, r), Ended(Start(s, id, r), r, Trades(s, id, r));
    SameTicks(s.books[id].market, e.book.market, r.terms.price);
    RecordedSound(e, r, s.books[id].market.sequence[r.terms.branch]);
    SameLiabilities(o.book, Recorded(e.book, r, s.books[id].market.sequence[r.terms.branch]));
    forall c | c in r.Custody()
      ensures && c < COLLATERALS && c <= s.books[id].market.bases && s.books[id].market.mints[c] in s.pools
              && o.book.ledgers.Liability(Underlying(c)) <= s.pools[s.books[id].market.mints[c]].vault
    {
      StartLiability(s, id, r, c);
    }
  }

  // ---------------------------------------------------------------- the handlers

  /** A request the entry checks or the fills refuse is not admissible. */
  lemma Inadmissible(s: Chain, id: Pubkey, r: Request)
    ensures Admissible(s, id, r) ==> id in s.books && Entry(s, id, r).Done? && Fillable(s, id, r)
  {
    hide Entry, Reviewed, ReservedFor, AvailableTo, WellFilled, Ticks, RaceFree, Ended, CapsHold, Rests;
    if Entry(s, id, r).Done? { EntryShape(s, id, r); }
  }

  /** A placement that settled its plan succeeds exactly when the finishing checks pass. */
  lemma FinishDecides(s: Chain, id: Pubkey, r: Request)
    requires Inv(s) && Fillable(s, id, r)
    ensures SettledFacts(s, id, r) && Ticks(s.books[id].market, r.terms.price) <= U64_MAX
    ensures var b := Settled(s, id, r).book;
            && Steady(Settled(s, id, r)) && Entered(b, r) && Entered(Finished(b, r), r)
            && (b.orders[r.Key()].remaining != 0 ==> b.orders[r.Key()].status == LIVE)
            && 0 <= b.orders[r.Key()].sequence <= U64_MAX && Ticks(b.market, r.terms.price) <= U64_MAX
            && b.orders[r.Key()].sequence == s.books[id].market.sequence[r.terms.branch]
            && Finished(b, r).orders[r.Key()].sequence == b.orders[r.Key()].sequence
            && (Admissible(s, id, r) <==> FinishOk(Finished(b, r), r))
            && Ended(Start(s, id, r), r, Trades(s, id, r)) == Flight(Finished(b, r), Settled(s, id, r).minted)
  {
    hide Inv, Fillable, Settled, Steady, Opened, Trades, Ended, Start, Finished, RaceFree, RingOf, Ticks, CapsHold,
      Rests, Admissible, OrderTerms.Asset;
    FillableFacts(s, id, r);
    SettledIsKnown(s, id, r);
    AdmissibleWhen(s, id, r);
    var b, e := Settled(s, id, r).book, Finished(Settled(s, id, r).book, r);
    FinishKeepsSequence(b, r);
    SameTicks(s.books[id].market, b.market, r.terms.price);
    SameTicks(s.books[id].market, e.market, r.terms.price);
    SameRingOf(s.books[id].market, e.market, r.terms.branch);
  }

  /** Mints what the fills owe, checks backing and custody of every presented collateral, that the
      market owes each pool what it did, and returns all pool credit through the frames. */
  method ClosePlacement(session: Session, pools: map<Pubkey, Pool>, credits: map<CreditKey, int>, r: Request,
                        ghost start: Book)
    returns (after: map<CreditKey, int>)
    requires ReadyToMint(session.Image(), session.minted, r.frames, start) && FramesIn(session.Image(), r.frames)
    requires OwedWithin(session.minted, r.Custody()) && VaultsCover(pools, session.Image(), r.Custody())
    modifies session
    ensures var closing := MintAll(old(session.Image()), old(session.minted));
            && FramesIn(closing, r.frames)
            && session.Image() == FlushAll(closing, r.frames, |r.frames|)
            && after == PutBack(credits, closing.market, r.frames, AllFlushed(closing, r.frames), |r.frames|)
  {
    hide Core, Backed, MintAll, OwedWithin, Framed, Liabilities, PutBack, AllFlushed, FlushAll, Ledgers.Liability,
      Market.Payouts;
    ghost var b := session.Image();
    ClosingMarket(b, session.minted, r.frames);
    var vaults := map c | c in r.Custody() :: pools[session.market.mints[c]].vault;
    session.MintPresented(r.Custody(), vaults);
    // The closing guards: nothing moved between pools, and no pool credit stays behind.
    assert Liabilities(session.Image()) == Liabilities(start);
    ghost var closing := session.Image();
    after := session.FlushFrames(r.frames, credits);
    FlushedEmpty(closing, r.frames);
    assert EmptyUnderlying(session.Image());
    assert forall o | o in session.wallets :: EmptyWallet(session.wallets[o]);
  }

  lemma ClosingMarket(b: Book, minted: Amounts, frames: seq<Frame>)
    ensures MintAll(b, minted).market == b.market && MintAll(b, minted).wallets == b.wallets
    ensures MintAll(b, minted).ledgers == b.ledgers && Liabilities(MintAll(b, minted)) == Liabilities(b)
    ensures FramesIn(b, frames) ==> FramesIn(MintAll(b, minted), frames)
  {
  }

  lemma FlushedEmpty(b: Book, frames: seq<Frame>)
    requires Core(b) && FramesIn(b, frames) && Framed(b, frames)
    ensures var r := FlushAll(b, frames, |frames|);
            EmptyUnderlying(r) && forall o | o in r.wallets :: EmptyWallet(r.wallets[o])
  {
    hide Balanced, OrdersOk, TermsOk, NonNegative, FlushAll, Framed, EmptyUnderlying, EmptyWallet, Drained;
    FlushDrains(b, frames);
    FlushKeeps(b, frames, |frames|);
    DrainedPasses(FlushAll(b, frames, |frames|));
  }

  /** The placement on a copy of the market's accounts: what is to be stored if it succeeds. */
  method Attempt(s: Chain, id: Pubkey, r: Request) returns (o: Outcome, b: Book, credits: map<CreditKey, int>)
    requires Inv(s)
    ensures o.Done? <==> Admissible(s, id, r)
    ensures o.Done? ==> id in s.books && Ticks(s.books[id].market, r.terms.price) <= U64_MAX
                        && s.(books := s.books[id := b], credits := credits) == Placed(s, id, r)
  {
    hide Inv, Entry, Fillable, Admissible, Settled, SettledFacts, Steady, Finished, FinishOk, Ticks, Placed, OwedWithin,
      Closing, ReadyToMint, VaultsCover, Recorded, Ended, Start, Trades, OrderTerms.Asset, EmptyUnderlying,
      OpeningGuards;
    credits := s.credits;
    b := Book(Market(Terms(0, 0, 0, Caps(0, 0, 0, 0, 0, 0, 0)), 0, [NO_LEG, NO_LEG, NO_LEG],
                     [NOBODY, NOBODY, NOBODY, NOBODY], {}, 0, [0, 0],
                     EMPTY_RING, (0, 0)), EMPTY_LEDGERS, seq(ASSETS, _ => ClaimTokens(0, 0)), map[], map[]);
    Inadmissible(s, id, r);
    if id !in s.books { return Fail(InvalidAccount), b, credits; }
    var session := new Session(s.books[id]);
    NothingHydrated(s, id);
    assert EmptyUnderlying(session.Image());
    o := Entry(s, id, r);
    if o.Fail? { return; }
    EntryShape(s, id, r);
    var opening := CheckOpening(s.pools, session.Image(), r);
    OpeningPasses(s, id, r);
    assert opening.Done?;
    o := FillPlacement(session, s, id, r);
    if o.Fail? { return; }
    FinishDecides(s, id, r);
    ClosingIsKnown(s, id, r);
    o := FinishPlacement(session, r);
    if o.Fail? { return; }
    PlacedIsFlushed(s, id, r);
    credits := ClosePlacement(session, s.pools, s.credits, r, Start(s, id, r).book);
    b := session.Image();
    SameKeys(s.credits, Closing(s, id, r).market, s.books[id].market, r.frames,
             AllFlushed(Closing(s, id, r), r.frames), |r.frames|);
  }

  /** Where credit is stored depends on a market's mints alone. */
  lemma {:induction false} SameKeys(credits: map<CreditKey, int>, m: Market, n: Market, frames: seq<Frame>,
                                    values: seq<int>, i: nat)
    requires i <= |frames| == |values| && (forall f | f in frames :: f.collateral < COLLATERALS) && m.mints == n.mints
    ensures PutBack(credits, m, frames, values, i) == PutBack(credits, n, frames, values, i)
  {
    if i > 0 {
      SameKeys(credits, m, n, frames, values, i - 1);
      assert frames[i - 1] in frames;
    }
  }

  lemma PlacedIsFlushed(s: Chain, id: Pubkey, r: Request)
    requires Inv(s) && Fillable(s, id, r) && ClosingFacts(s, id, r, Ended(Start(s, id, r), r, Trades(s, id, r)))
    ensures var c := Closing(s, id, r);
            && Placed(s, id, r).books == s.books[id := FlushAll(c, r.frames, |r.frames|)]
            && Placed(s, id, r).credits
               == PutBack(s.credits, s.books[id].market, r.frames, AllFlushed(c, r.frames), |r.frames|)
  {
    hide Inv, Fillable, Closing, Ticks, Ended, Start, Trades, PutBack, AllFlushed, FlushAll, ReadyToMint, VaultsCover,
      Recorded;
    FillableFacts(s, id, r);
  }
}
