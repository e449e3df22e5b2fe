/** The end of a placement: release, race record, mints and flush; every admissible placement
    keeps the global invariant. */
module Completion {
  import opened Exact
  import opened Rules
  import opened Sums
  import opened Conversion
  import opened State
  import opened Settlement
  import opened InFlight
  import opened Matching
  import opened Chain
  import opened Exchange
  import opened Placing

  // ------------------------------------------------------------------ stages

  /** The taker's order is in the book. */
  predicate Entered(b: Book, r: Request) {
    && r.Key() in b.orders && b.orders[r.Key()].terms == r.terms
    && r.owner in b.wallets && r.terms.Asset() < ASSETS && r.terms.branch < 2
  }

  /** Every fill settled, and a leftover that may not rest released. */
  ghost function Ended(o: Flight, r: Request, trades: seq<Trade>): (f: Flight)
    requires Entered(o.book, r)
    ensures f.book.wallets.Keys == o.book.wallets.Keys && f.book.market == o.book.market
    ensures f.book.tokens == o.book.tokens && Entered(f.book, r)
  {
    var g := SettleAll(o, trades);
    Flight(Finished(g.book, r), g.minted)
  }

  /** Everything recorded and minted, before pool credit flows back. */
  ghost function Closed(o: Flight, r: Request, trades: seq<Trade>, sequence: nat): (b: Book)
    requires Entered(o.book, r) && Ticks(o.book.market, r.terms.price) <= U64_MAX
    ensures b.wallets.Keys == o.book.wallets.Keys
    ensures b.market == o.book.market.(recent := b.market.recent)
  {
    hide Ticks, OrderTerms.Asset;
    var f := Ended(o, r, trades);
    MintAll(Recorded(f.book, r, sequence), f.minted)
  }

  ghost predicate CapsHold(b: Book, owner: Pubkey) {
    owner in b.wallets && b.market.terms.caps.FinalExposure(b.wallets[owner].openNotional, b.ledgers.openNotional).Ok?
  }

  /** The books before the first fill. */
  ghost function Start(s: Chain, id: Pubkey, r: Request): (o: Flight)
    requires Fillable(s, id, r)
    ensures o.book == Opened(s, id, r) && o.minted == NO_AMOUNTS
    ensures Entered(o.book, r)
  {
    hide Fillable, OrderTerms.Asset;
    Flight(Opened(s, id, r), NO_AMOUNTS)
  }

  /** When a placement succeeds: the request can be settled, what would rest cannot have raced
      an order its plan did not see, and the exposure it leaves is within the caps. */
  ghost predicate Admissible(s: Chain, id: Pubkey, r: Request) {
    && Fillable(s, id, r)
    && Ticks(s.books[id].market, r.terms.price) <= U64_MAX
    && (Rests(s, id, r) ==>
          RaceFree(RECENT, r.plan.nextSequence, s.books[id].market.sequence[r.terms.branch], r.terms.side,
                   Ticks(s.books[id].market, r.terms.price), RingOf(s.books[id].market, r.terms.branch)).Ok?)
    && CapsHold(Ended(Start(s, id, r), r, Trades(s, id, r)).book, r.owner)
  }

  /** The books and the pool credit after the placement. */
  ghost function Flushing(b: Book, frames: seq<Frame>, credits: map<CreditKey, int>, m: Market): (Book,
      map<CreditKey, int>)
    requires FramesIn(b, frames)
  {
    (FlushAll(b, frames, |frames|), PutBack(credits, m, frames, AllFlushed(b, frames), |frames|))
  }

  ghost function Closing(s: Chain, id: Pubkey, r: Request): (b: Book)
    requires Fillable(s, id, r) && Ticks(s.books[id].market, r.terms.price) <= U64_MAX
    ensures FramesIn(b, r.frames)
  {
    hide Fillable, Entered, Closed, Trades, Opened, Ticks;
    FillableFacts(s, id, r);
    assert Ticks(Opened(s, id, r).market, r.terms.price) == Ticks(s.books[id].market, r.terms.price) by {
      SameTicks(s.books[id].market, Opened(s, id, r).market, r.terms.price);
    }
    Closed(Start(s, id, r), r, Trades(s, id, r), s.books[id].market.sequence[r.terms.branch])
  }

  lemma SameTicks(m: Market, n: Market, price: u128)
    requires m.terms == n.terms
    ensures Ticks(m, price) == Ticks(n, price)
  {
  }

  /** The deployment after the placement. */
  ghost function Placed(s: Chain, id: Pubkey, r: Request): (c: Chain)
    requires Fillable(s, id, r) && Ticks(s.books[id].market, r.terms.price) <= U64_MAX
    ensures c == s.(books := c.books, credits := c.credits) && id in c.books && c.books == s.books[id := c.books[id]]
  {
    hide Fillable, Closing, Ticks;
    FillableFacts(s, id, r);
    var (b, credits) := Flushing(Closing(s, id, r), r.frames, s.credits, s.books[id].market);
    s.(books := s.books[id := b], credits := credits)
  }

  // ------------------------------------------------ releasing and recording

  /** An order with something left is live. */
  lemma LeftoverIsLive(b: Book, key: OrderKey)
    requires Core(b) && key in b.orders && b.orders[key].remaining != 0
    ensures b.orders[key].status == LIVE
  {
    hide Balanced, NonNegative, Caps.ValidateOrder, Ceil;
    assert OrderOk(b.market, key, b.orders[key]);
  }

  lemma FinishedKeeps(f: Flight, r: Request, scale: nat, parts: Parts)
    requires Steady(f) && TakerReady(f.book, r, [], scale, parts) && Framed(f.book, r.frames)
    ensures r.owner in f.book.wallets && r.terms.Asset() < ASSETS
    ensures var g := Finished(f.book, r);
            && Steady(Flight(g, f.minted)) && Framed(g, r.frames)
            && forall a | 0 <= a < ASSETS :: g.ledgers.Liability(a) == f.book.ledgers.Liability(a)
  {
    hide Core, Backed, Bounded, Framed, Release, Ledgers.Liability, Market.Payouts, OrderTerms.Asset,
      OrderTerms.Collateral;
    OrderOwner(f.book, r.Key());
    if r.terms.tif == 1 && f.book.orders[r.Key()].remaining != 0 {
      LeftoverIsLive(f.book, r.Key());
      ReleaseKeeps(f, r.Key());
    }
  }

  lemma OrderOwner(b: Book, key: OrderKey)
    requires Core(b) && key in b.orders
    ensures key.owner in b.wallets && b.orders[key].terms.Asset() < ASSETS
  {
    hide NonNegative, OrdersOk, TermsOk;
  }

  /** The ring is no part of the books. */
  lemma RecordedKeeps(f: Flight, r: Request, sequence: nat)
    requires Steady(f) && Framed(f.book, r.frames)
    requires r.terms.branch < 2 && Ticks(f.book.market, r.terms.price) <= U64_MAX
    ensures var g := Recorded(f.book, r, sequence);
            && Steady(Flight(g, f.minted)) && Framed(g, r.frames) && g.ledgers == f.book.ledgers
            && g.orders == f.book.orders
  {
    hide Recorded, Caps.ValidateOrder, Caps.Validate, Ceil, BoundNonce, Ticks;
    var b, g := f.book, Recorded(f.book, r, sequence);
    RingLeavesOrders(b, g);
    RingLeavesBacking(b, g, f.minted);
  }

  lemma RingLeavesOrders(b: Book, g: Book)
    requires Core(b) && g == b.(market := b.market.(recent := g.market.recent))
    ensures Core(g)
  {
    hide Caps.ValidateOrder, Caps.Validate, Ceil, BoundNonce;
    forall k | k in g.orders
      ensures OrderOk(g.market, k, g.orders[k])
    {
      assert OrderOk(b.market, k, b.orders[k]);
    }
  }

  lemma RingLeavesBacking(b: Book, g: Book, minted: Amounts)
    requires Backed(b, minted) && g == b.(market := b.market.(recent := g.market.recent))
    ensures Backed(g, minted)
  {
    StillBacked(b, g, minted);
  }

  // --------------------------------------------------- exposure only shrinks

  ghost predicate NoMoreExposure(b: Book, r: Book) {
    && r.wallets.Keys == b.wallets.Keys
    && (forall o | o in b.wallets :: r.wallets[o].openNotional <= b.wallets[o].openNotional)
    && r.ledgers.openNotional <= b.ledgers.openNotional
  }

  lemma SetOrderExposes(b: Book, key: OrderKey, order: Order)
    requires key.owner in b.wallets && order.terms.Asset() < ASSETS && key in b.orders
    requires b.orders[key].terms == order.terms && order.openNotional <= b.orders[key].openNotional
    ensures NoMoreExposure(b, SetOrder(b, key, order))
  {
    hide OrderTerms.Asset;
  }

  lemma DeliverExposes(b: Book, c: nat, funding: nat, funder: Pubkey, recipient: Pubkey,
                       branch: nat, amount: int, fee: int)
    requires c < COLLATERALS && branch < 2 && funder in b.wallets && recipient in b.wallets
    ensures NoMoreExposure(b, Deliver(b, c, funding, funder, recipient, branch, amount, fee))
  {
  }

  lemma PostExposes(b: Book, owner: Pubkey, asset: nat, amount: int)
    requires owner in b.wallets && asset < ASSETS
    ensures NoMoreExposure(b, Post(b, owner, asset, amount))
  {
  }

  lemma SettleOrdersExposes(b: Book, t: Trade)
    requires Core(b) && Matches(b, t) && Settleable(b, t)
    ensures NoMoreExposure(b, SettleOrders(b, t))
  {
    hide Post, SetOrder, Improvement, Surplus, FeeOn, CarryOn, Ceil, Floor, Balanced, NonNegative, Caps.ValidateOrder,
      NoMoreExposure, OrderTerms.Asset, OrderTermsOk, SingleBase, OrderTerms.Collateral;
    var buy, sell := b.orders[t.buy], b.orders[t.sell];
    assert OrderOk(b.market, t.buy, buy) && OrderOk(b.market, t.sell, sell);
    QuoteMono(buy.remaining - t.quantity, buy.remaining, buy.terms.price, buy.terms.price);
    QuoteMono(sell.remaining - t.quantity, sell.remaining, sell.terms.price, sell.terms.price);
    var improved := Post(b, t.buy.owner, buy.terms.Asset(), Improvement(buy, t));
    PostExposes(b, t.buy.owner, buy.terms.Asset(), Improvement(buy, t));
    SetOrderExposes(improved, t.buy, Bought(buy, t));
    var bought := SetOrder(improved, t.buy, Bought(buy, t));
    SetOrderExposes(bought, t.sell, Sold(sell, t));
    ExposureTransitive(b, improved, bought);
    ExposureTransitive(b, bought, SetOrder(bought, t.sell, Sold(sell, t)));
  }

  lemma ExposureTransitive(a: Book, b: Book, c: Book)
    requires NoMoreExposure(a, b) && NoMoreExposure(b, c)
    ensures NoMoreExposure(a, c)
  {
  }

  lemma SettleExposes(b: Book, t: Trade)
    requires Core(b) && Matches(b, t) && Settleable(b, t)
    ensures NoMoreExposure(b, Settle(b, t))
  {
    SettleOrdersExposes(b, t);
    hide Post, Deliver, Improvement, Surplus, FeeOn, Core, SettleOrders, Matches, NoMoreExposure, OrderTerms.Asset,
      Floor, OrderTerms.Collateral;
    var buy, sell := b.orders[t.buy], b.orders[t.sell];
    DeliverExposes(SettleOrders(b, t), t.base, sell.terms.funding, t.sell.owner, buy.terms.recipient,
                   buy.terms.branch, t.raw, FeeOn(t.raw, t.buyerRate, buy.feeCarry));
    DeliverExposes(DeliverBase(b, t), QUOTE, buy.terms.funding, t.buy.owner, sell.terms.recipient,
                   buy.terms.branch, t.Quote(), FeeOn(t.Quote(), t.sellerRate, sell.feeCarry));
    PostExposes(DeliverQuote(b, t), t.sell.owner, sell.terms.Asset(), Surplus(sell, t));
    ExposureTransitive(b, SettleOrders(b, t), DeliverBase(b, t));
    ExposureTransitive(b, DeliverBase(b, t), DeliverQuote(b, t));
    ExposureTransitive(b, DeliverQuote(b, t), Settle(b, t));
  }

  /** Trading exposes nobody further: not even the makers' owners. */
  lemma {:induction false} SettleAllExposes(f: Flight, r: Request, trades: seq<Trade>, scale: nat, parts: Parts)
    requires Steady(f) && Queued(f.book, r, trades, scale, parts)
    ensures NoMoreExposure(f.book, SettleAll(f, trades).book)
    decreases |trades|
  {
    hide Core, Backed, Bounded, Queued, Market.Payouts, Settle, SettleMints, Settleable, Matches;
    if trades != [] {
      NextMatches(f.book, r, trades, scale, parts);
      SettleKeepsBooks(f.book, f.minted, trades[0]);
      SettleKeepsQueue(f.book, r, trades, scale, parts);
      SettleExposes(f.book, trades[0]);
      SettleAllExposes(SettleNext(f, trades[0]), r, trades[1..], scale, parts);
    }
  }

  // ----------------------------------------------------------- the whole run

  /** Settling and releasing keep the books, and move no underlying liability. */
  lemma EndedKeeps(o: Flight, r: Request, trades: seq<Trade>, scale: nat, parts: Parts)
    requires Steady(o) && Queued(o.book, r, trades, scale, parts) && Framed(o.book, r.frames) && Entered(o.book, r)
    ensures var f := Ended(o, r, trades);
            && Steady(f) && Framed(f.book, r.frames)
            && forall c | 0 <= c < COLLATERALS ::
                 f.book.ledgers.Liability(Underlying(c)) == o.book.ledgers.Liability(Underlying(c))
  {
    hide Queued, TakerReady, Finished, Framed, Steady, Ledgers.Liability, SettleAll, OrderTerms.Asset;
    SettleAllKeeps(o, r, trades, scale, parts);
    FinishedKeeps(SettleAll(o, trades), r, scale, parts);
  }

  /** Recording and minting complete the books: nothing is owed to a mint any more. */
  lemma ClosedKeeps(o: Flight, r: Request, trades: seq<Trade>, scale: nat, parts: Parts, sequence: nat)
    requires Steady(o) && Queued(o.book, r, trades, scale, parts) && Framed(o.book, r.frames) && Entered(o.book, r)
    requires Ticks(o.book.market, r.terms.price) <= U64_MAX
    ensures var b := Closed(o, r, trades, sequence);
            && Steady(Flight(b, NO_AMOUNTS)) && Framed(b, r.frames)
            && forall c | 0 <= c < COLLATERALS ::
                 b.ledgers.Liability(Underlying(c)) == o.book.ledgers.Liability(Underlying(c))
  {
    hide Queued, Ended, Recorded, MintAll, Framed, Steady, Ledgers.Liability, OrderTerms.Asset, Ticks;
    EndedKeeps(o, r, trades, scale, parts);
    var f := Ended(o, r, trades);
    RecordedKeeps(f, r, sequence);
    MintKeeps(Flight(Recorded(f.book, r, sequence), f.minted));
    MintLeaves(Recorded(f.book, r, sequence), f.minted, r.frames);
  }

  lemma MintLeaves(b: Book, minted: Amounts, frames: seq<Frame>)
    ensures Framed(b, frames) ==> Framed(MintAll(b, minted), frames)
    ensures MintAll(b, minted).ledgers == b.ledgers && MintAll(b, minted).wallets == b.wallets
    ensures MintAll(b, minted).orders == b.orders && MintAll(b, minted).market == b.market
  {
  }

  /** Beyond the taker's owner nobody is left more exposed, and beyond the taker's order only
      resting orders stay open. */
  lemma EndedExposes(o: Flight, r: Request, trades: seq<Trade>, scale: nat, parts: Parts)
    requires Steady(o) && Queued(o.book, r, trades, scale, parts) && Entered(o.book, r)
    ensures forall w | w in o.book.wallets && w != r.owner ::
              Ended(o, r, trades).book.wallets[w].openNotional <= o.book.wallets[w].openNotional
  {
    hide Queued, Steady, SettleAll, Finished, OrderTerms.Asset;
    SettleAllExposes(o, r, trades, scale, parts);
    forall w | w in o.book.wallets && w != r.owner
      ensures Ended(o, r, trades).book.wallets[w].openNotional <= o.book.wallets[w].openNotional
    {
      FinishedExposes(SettleAll(o, trades).book, r, w);
    }
  }

  lemma FinishedExposes(b: Book, r: Request, o: Pubkey)
    requires r.Key() in b.orders && b.orders[r.Key()].terms == r.terms && r.owner in b.wallets
             && r.terms.Asset() < ASSETS
    requires o in b.wallets && o != r.owner
    ensures Finished(b, r).wallets[o].openNotional == b.wallets[o].openNotional
  {
    hide OrderTerms.Asset;
  }

  ghost predicate OnlyRestingBut(b: Book, key: OrderKey) {
    forall k | k in b.orders && k != key && b.orders[k].status == LIVE :: b.orders[k].terms.tif == 0
  }

  /** Makers keep their terms. */
  lemma OthersRest(o: Flight, r: Request, trades: seq<Trade>, scale: nat, parts: Parts)
    requires Steady(o) && Queued(o.book, r, trades, scale, parts) && OnlyRestingBut(o.book, r.Key())
    ensures OnlyRestingBut(SettleAll(o, trades).book, r.Key())
  {
    hide Steady, Queued, SettleAll, Bought, Sold;
    SettleAllFillsMakers(o, r, trades, scale, parts);
    var g := SettleAll(o, trades);
    forall k | k in g.book.orders && k != r.Key() && g.book.orders[k].status == LIVE
      ensures g.book.orders[k].terms.tif == 0
    {
      if t :| t in trades && Maker(r, t) == k {
        TradedStatus(r, o.book.orders[k], t);
      }
    }
  }

  lemma TradedStatus(r: Request, o: Order, t: Trade)
    requires t.quantity <= o.remaining
    ensures Traded(r, o, t).terms == o.terms && (Traded(r, o, t).status == LIVE ==> o.status == LIVE)
  {
  }

  lemma FinishedRests(b: Book, r: Request)
    requires Core(b) && r.Key() in b.orders && b.orders[r.Key()].terms == r.terms && r.terms.tif < 2
    requires r.owner in b.wallets && r.terms.Asset() < ASSETS && OnlyRestingBut(b, r.Key())
    ensures OnlyResting(Finished(b, r))
  {
    hide Core, Release, OrderTerms.Asset;
    LiveRemains(b, r.Key());
  }

  /** What an immediate-or-cancel order leaves unfilled is released. */
  lemma EndedRests(o: Flight, r: Request, trades: seq<Trade>, scale: nat, parts: Parts)
    requires Steady(o) && Queued(o.book, r, trades, scale, parts) && Framed(o.book, r.frames) && Entered(o.book, r)
    requires OnlyRestingBut(o.book, r.Key()) && r.terms.tif < 2
    ensures OnlyResting(Ended(o, r, trades).book)
  {
    hide Queued, TakerReady, Steady, SettleAll, OrderTerms.Asset, OnlyRestingBut, OnlyResting, Finished, Framed;
    SettleAllKeeps(o, r, trades, scale, parts);
    OthersRest(o, r, trades, scale, parts);
    SteadyCore(SettleAll(o, trades));
    FinishedRests(SettleAll(o, trades).book, r);
  }

  lemma SteadyCore(f: Flight)
    requires Steady(f)
    ensures Core(f.book) && Backed(f.book, f.minted) && f.book.market.Payouts().None?
  {
  }

  // ------------------------------------------------- the deployment afterwards

  lemma FlushSound(b: Book, frames: seq<Frame>)
    requires Core(b) && Backed(b, NO_AMOUNTS) && FramesIn(b, frames) && Framed(b, frames)
    ensures var r := FlushAll(b, frames, |frames|); Core(r) && Backed(r, NO_AMOUNTS) && Drained(r)
  {
    hide Core, Backed, Framed, FlushAll, Drained, Ledgers.Liability, Market.Payouts;
    FlushKeeps(b, frames, |frames|);
    FlushDrains(b, frames);
    StillBacked(b, FlushAll(b, frames, |frames|), NO_AMOUNTS);
  }

  lemma {:induction false} FlushExposes(b: Book, frames: seq<Frame>, n: nat)
    requires n <= |frames| && FramesIn(b, frames)
    ensures forall o | o in b.wallets :: FlushAll(b, frames, n).wallets[o].openNotional == b.wallets[o].openNotional
    ensures FlushAll(b, frames, n).ledgers.openNotional == b.ledgers.openNotional
  {
    if n > 0 {
      FlushExposes(b, frames, n - 1);
      assert frames[n - 1] in frames;
    }
  }

  lemma {:induction false} HydrateExposes(b: Book, frames: seq<Frame>, available: seq<int>, n: nat, o: Pubkey)
    requires n <= |frames| == |available| && FramesIn(b, frames) && o in b.wallets
    ensures HydrateAll(b, frames, available, n).wallets[o].openNotional == b.wallets[o].openNotional
  {
    if n > 0 {
      HydrateExposes(b, frames, available, n - 1, o);
      assert frames[n - 1] in frames;
    }
  }

  /** A limit price the caps accept fits the ring. */
  lemma TicksRecord(s: Chain, id: Pubkey, r: Request)
    requires Inv(s) && Fillable(s, id, r)
    ensures Ticks(s.books[id].market, r.terms.price) <= U64_MAX
  {
    hide Inv, Fillable, Entry, BookOk, Caps.ValidateOrder, LegsOk, Core, TermsShape, FramesPresented, LegOpen;
    FillableFacts(s, id, r);
    EntryFacts(s, id, r);
    InvBook(s, id);
    BookCaps(s.books[id]);
    TicksFit(s.books[id].market.terms.caps, r.terms.quantity, r.terms.price);
  }

  lemma OpenedExposes(s: Chain, id: Pubkey, r: Request, o: Pubkey)
    requires Fillable(s, id, r) && o in s.books[id].wallets && o != r.owner
    ensures Opened(s, id, r).wallets[o].openNotional == s.books[id].wallets[o].openNotional
  {
    hide Fillable, FramesOk, Entry, OrderTerms.Asset, HydrateAll, ReservedFor, KeyOf;
    FillableFacts(s, id, r);
    FramesLoad(s, id, r);
    assert FramesIn(s.books[id], r.frames) by {
      FramesAreIn(s.credits, s.books[id], r.frames);
    }
    HydrateExposes(s.books[id], r.frames, Available(s.credits, s.books[id], r.frames), |r.frames|, o);
  }

  lemma FramesAreIn(credits: map<CreditKey, int>, b: Book, frames: seq<Frame>)
    requires FramesOk(credits, b, frames)
    ensures FramesIn(b, frames)
  {
  }

  lemma OpenedRests(s: Chain, id: Pubkey, r: Request)
    requires Inv(s) && Fillable(s, id, r)
    ensures OnlyRestingBut(Opened(s, id, r), r.Key()) && r.terms.tif < 2
  {
    hide Fillable, Opened, TakerOrder, Entry, Core, Backed, Drained, LegsOk, LifecycleOk, ExposureCapped, UnlistedEmpty,
      PoolsBalanced, AccountsOk, LegOpen, SingleBase, BoundNonce, Caps.ValidateOrder, FramesPresented;
    FillableFacts(s, id, r);
    EntryFacts(s, id, r);
    assert BookOk(s.books[id]);
  }

  /** A fillable request meets everything the settlement relies on. */
  lemma StartReady(s: Chain, id: Pubkey, r: Request)
    requires Inv(s) && Fillable(s, id, r)
    ensures Ticks(Start(s, id, r).book.market, r.terms.price) <= U64_MAX
    ensures var o := Start(s, id, r);
            && Steady(o) && Framed(o.book, r.frames) && OnlyRestingBut(o.book, r.Key()) && r.terms.tif < 2
            && Queued(o.book, r, Trades(s, id, r), ScaleOf(s.books[id].market, r), PartsOf(r))
  {
    hide Inv, Fillable, Hydrated, Framed, Steady, Ledgers.Liability, FramesOk, Ticks, Queued, Opened, Trades,
      OnlyRestingBut, Entered;
    FillableFacts(s, id, r);
    TicksRecord(s, id, r);
    OpenedKeeps(s, id, r);
    OpenedQueues(s, id, r);
    OpenedRests(s, id, r);
    SameTicks(s.books[id].market, Start(s, id, r).book.market, r.terms.price);
  }

  /** The books before pool credit flows back. */
  lemma ClosingKeeps(s: Chain, id: Pubkey, r: Request)
    requires Inv(s) && Fillable(s, id, r)
    ensures Ticks(s.books[id].market, r.terms.price) <= U64_MAX
    ensures var o, c := Start(s, id, r), Closing(s, id, r);
            && Steady(Flight(c, NO_AMOUNTS)) && Framed(c, r.frames) && OnlyResting(c)
            && c.wallets.Keys == s.books[id].wallets.Keys
            && c.market == s.books[id].market.(recent := c.market.recent, sequence := c.market.sequence)
            && (forall k | 0 <= k < COLLATERALS ::
                  c.ledgers.Liability(Underlying(k)) == o.book.ledgers.Liability(Underlying(k)))
  {
    hide Inv, Fillable, Framed, Steady, Ledgers.Liability, Ticks, Queued, Closed, Opened, Trades, Ended, OnlyResting,
      OnlyRestingBut, Entered;
    FillableFacts(s, id, r);
    TicksRecord(s, id, r);
    StartReady(s, id, r);
    var o, trades := Start(s, id, r), Trades(s, id, r);
    var scale, parts := ScaleOf(s.books[id].market, r), PartsOf(r);
    var sequence := s.books[id].market.sequence[r.terms.branch];
    ClosedKeeps(o, r, trades, scale, parts, sequence);
    EndedRests(o, r, trades, scale, parts);
    ClosedIs(o, r, trades, sequence);
  }

  lemma ClosedIs(o: Flight, r: Request, trades: seq<Trade>, sequence: nat)
    requires Entered(o.book, r) && Ticks(o.book.market, r.terms.price) <= U64_MAX
    ensures var e, c := Ended(o, r, trades).book, Closed(o, r, trades, sequence);
            && c.orders == e.orders && c.wallets == e.wallets && c.ledgers == e.ledgers
            && (OnlyResting(e) ==> OnlyResting(c))
  {
    hide Ended, Ticks, OrderTerms.Asset;
  }

  lemma ClosingCapped(s: Chain, id: Pubkey, r: Request)
    requires Inv(s) && Admissible(s, id, r)
    ensures ExposureCapped(Closing(s, id, r))
  {
    hide Inv, Fillable, Framed, Steady, Ticks, Queued, Closed, Opened, Trades, Ended, Entered, BookOk;
    FillableFacts(s, id, r);
    StartReady(s, id, r);
    InvBook(s, id);
    var o, trades := Start(s, id, r), Trades(s, id, r);
    EndedExposes(o, r, trades, ScaleOf(s.books[id].market, r), PartsOf(r));
    ClosedIs(o, r, trades, s.books[id].market.sequence[r.terms.branch]);
    var c := Closing(s, id, r);
    assert ExposureCapped(s.books[id]) by { CappedBook(s.books[id]); }
    forall w | w in c.wallets
      ensures c.wallets[w].openNotional <= c.market.terms.caps.maxWallet
    {
      if w != r.owner {
        OpenedExposes(s, id, r, w);
      }
    }
  }

  lemma CappedBook(b: Book)
    requires BookOk(b)
    ensures ExposureCapped(b)
  {
  }

  /** What depends on neither the ring nor the sequences of a market. */
  lemma SameListing(m: Market, n: Market)
    requires n == m.(recent := n.recent, sequence := n.sequence)
    ensures LegsOk(m) ==> LegsOk(n)
    ensures LifecycleOk(m) ==> LifecycleOk(n)
  {
    hide ListingChecks;
    if LegsOk(m) {
      forall c | 1 <= c <= n.bases
        ensures LegOk(n, c)
      {
        assert LegOk(m, c);
      }
    }
  }

  /** A collateral nothing is owed in has neither backing nor claims. */
  lemma OwesNothing(b: Book, c: nat)
    requires Core(b) && Backed(b, NO_AMOUNTS) && b.market.Payouts().None?
    requires c < COLLATERALS && b.ledgers.Liability(Underlying(c)) == 0
    ensures b.ledgers.backing[c] == 0
    ensures b.tokens[Claim(c, 0)] == ClaimTokens(0, 0) && b.tokens[Claim(c, 1)] == ClaimTokens(0, 0)
  {
    hide Balanced, OrdersOk, TermsOk, Market.Payouts;
    LedgersNonNegative(b, Underlying(c));
    assert CollateralBacked(b.market, b.ledgers, b.tokens, NO_AMOUNTS, c);
    assert ClaimCovered(b.ledgers, b.tokens, NO_AMOUNTS, Claim(c, 0));
    assert ClaimCovered(b.ledgers, b.tokens, NO_AMOUNTS, Claim(c, 1));
  }

  lemma StartOwesUnlisted(s: Chain, id: Pubkey, r: Request, c: nat)
    requires Inv(s) && Fillable(s, id, r) && s.books[id].market.bases < c < COLLATERALS
    ensures Start(s, id, r).book.ledgers.Liability(Underlying(c)) == 0
  {
    hide Inv, Fillable, Framed, Steady, Ledgers.Liability, Opened, HydrateAll, BookOk;
    FillableFacts(s, id, r);
    FramesLoad(s, id, r);
    OpenedKeeps(s, id, r);
    InvBook(s, id);
    var b := s.books[id];
    UnlistedOwesNothing(b, c);
    HydrateLeaves(b, r.frames, Available(s.credits, b, r.frames), |r.frames|, c);
  }

  lemma BackedUnlisted(b: Book)
    requires Core(b) && Backed(b, NO_AMOUNTS) && b.market.Payouts().None?
    requires forall c | b.market.bases < c < COLLATERALS :: b.ledgers.Liability(Underlying(c)) == 0
    ensures UnlistedEmpty(b)
  {
    hide Core, Backed, Market.Payouts, Ledgers.Liability;
    forall c | b.market.bases < c < COLLATERALS
      ensures b.ledgers.backing[c] == 0
      ensures b.tokens[Claim(c, 0)] == ClaimTokens(0, 0) && b.tokens[Claim(c, 1)] == ClaimTokens(0, 0)
    {
      OwesNothing(b, c);
    }
  }

  /** The market's books after an admissible placement are books between instructions again. */
  lemma PlacedBookOk(s: Chain, id: Pubkey, r: Request)
    requires Inv(s) && Admissible(s, id, r)
    ensures BookOk(FlushAll(Closing(s, id, r), r.frames, |r.frames|))
  {
    hide Inv, Fillable, Framed, Core, Backed, Bounded, Ledgers.Liability, Ticks, Closing, OnlyResting, Market.Payouts,
      LegsOk, LifecycleOk, FlushAll, Start, Admissible, ExposureCapped, Drained;
    assert Fillable(s, id, r) by { AdmissibleIsFillable(s, id, r); }
    ClosingKeeps(s, id, r);
    ClosingCapped(s, id, r);
    FillableFacts(s, id, r);
    InvBook(s, id);
    var b, c := s.books[id], Closing(s, id, r);
    SameListing(b.market, c.market);
    forall k | c.market.bases < k < COLLATERALS
      ensures c.ledgers.Liability(Underlying(k)) == 0
    {
      StartOwesUnlisted(s, id, r, k);
    }
    BackedUnlisted(c);
    FlushedBookOk(c, r.frames);
  }

  lemma AdmissibleIsFillable(s: Chain, id: Pubkey, r: Request)
    requires Admissible(s, id, r)
    ensures Fillable(s, id, r) && Ticks(s.books[id].market, r.terms.price) <= U64_MAX
  {
  }

  lemma FlushedBookOk(c: Book, frames: seq<Frame>)
    requires Core(c) && Backed(c, NO_AMOUNTS) && FramesIn(c, frames) && Framed(c, frames)
    requires LegsOk(c.market) && LifecycleOk(c.market) && ExposureCapped(c) && UnlistedEmpty(c) && OnlyResting(c)
    ensures BookOk(FlushAll(c, frames, |frames|))
  {
    hide Core, Backed, Framed, FlushAll, Drained, LegsOk, LifecycleOk;
    FlushSound(c, frames);
    FlushExposes(c, frames, |frames|);
  }

  lemma FlushedNonNegative(b: Book, frames: seq<Frame>)
    requires Core(b) && FramesIn(b, frames)
    ensures forall v | v in AllFlushed(b, frames) :: v >= 0
  {
    hide FlushAll, Balanced, OrdersOk, TermsOk;
    forall i | 0 <= i < |frames|
      ensures Flushed(b, frames, i) >= 0
    {
      FlushKeeps(b, frames, i);
      assert frames[i] in frames;
    }
  }

  /** Pool credit that passed through the market is back in its accounts. */
  lemma PlacedConserves(s: Chain, id: Pubkey, r: Request, mint: Pubkey)
    requires Inv(s) && Fillable(s, id, r)
    ensures Ticks(s.books[id].market, r.terms.price) <= U64_MAX
    ensures var after := Placed(s, id, r);
            SumBy(after.credits, CreditIn(mint)) + Demand(after.books[id], mint)
            == SumBy(s.credits, CreditIn(mint)) + Demand(s.books[id], mint)
  {
    hide Inv, Fillable, Framed, Steady, Ledgers.Liability, Ticks, Opened, HydrateAll, BookOk, Demand, FlushAll, Closing,
      KeyOf, LegsOk, OnlyResting;
    FillableFacts(s, id, r);
    FramesLoad(s, id, r);
    OpenedKeeps(s, id, r);
    ClosingKeeps(s, id, r);
    InvBook(s, id);
    ListedMintsDiffer(s.books[id].market);
    RoundTripConserves(s.credits, s.books[id], r.frames, Closing(s, id, r), mint);
  }

  lemma ListedMintsDiffer(m: Market)
    requires LegsOk(m)
    ensures MintsDistinct(m)
  {
    hide LegOk;
  }

  lemma PlacedAccounts(s: Chain, id: Pubkey, r: Request)
    requires Inv(s) && Fillable(s, id, r)
    ensures Ticks(s.books[id].market, r.terms.price) <= U64_MAX
    ensures AccountsOk(Placed(s, id, r)) && Placed(s, id, r).credits.Keys == s.credits.Keys
  {
    hide Fillable, Framed, Ledgers.Liability, Ticks, Opened, HydrateAll, BookOk, Demand, FlushAll, Closing, KeyOf, Core,
      Backed, LegsOk, OnlyResting, PoolsBalanced, Anchored, AllFlushed, PutBack, Market.Payouts;
    FillableFacts(s, id, r);
    FramesLoad(s, id, r);
    ClosingKeeps(s, id, r);
    InvBook(s, id);
    ListedMintsDiffer(s.books[id].market);
    var c := Closing(s, id, r);
    FlushedNonNegative(c, r.frames);
    PutBackKeepsSign(s.credits, s.books[id].market, r.frames, AllFlushed(c, r.frames), |r.frames|);
    PutBackAt(s.credits, s.books[id], r.frames, AllFlushed(c, r.frames), |r.frames|, CreditKey(NOBODY, NOBODY));
  }

  /** Every admissible placement, whoever trades with whom and however they fund it, keeps the
      books of its market and the ledger of every pool. */
  lemma PlaceKeepsInv(s: Chain, id: Pubkey, r: Request)
    requires Inv(s) && Admissible(s, id, r)
    ensures Ticks(s.books[id].market, r.terms.price) <= U64_MAX
    ensures Inv(Placed(s, id, r))
  {
    hide Fillable, Ticks, BookOk, Demand, FlushAll, Closing, Admissible, PutBack, AccountsOk, BooksOk;
    AdmissibleIsFillable(s, id, r);
    FillableFacts(s, id, r);
    PlacedAccounts(s, id, r);
    PlacedBookOk(s, id, r);
    ClosingKeeps(s, id, r);
    var after := Placed(s, id, r);
    BooksStay(s, id, after.books[id], after);
    forall p | p in after.pools
      ensures after.pools[p].liability == SumBy(after.credits, CreditIn(p)) + SumBy(after.books, DemandOf(p))
    {
      PlacedConserves(s, id, r, p);
      SumUpdate(s.books, id, after.books[id], DemandOf(p));
    }
  }

  // ---------------------------------------------------------- what a placement fills

  lemma FinishedOthers(b: Book, r: Request, k: OrderKey)
    requires r.Key() in b.orders && b.orders[r.Key()].terms == r.terms && r.owner in b.wallets
             && r.terms.Asset() < ASSETS
    ensures Finished(b, r).orders.Keys == b.orders.Keys
    ensures k in b.orders && k != r.Key() ==> Finished(b, r).orders[k] == b.orders[k]
    ensures Finished(b, r).orders[r.Key()].filled == b.orders[r.Key()].filled
  {
    hide OrderTerms.Asset, Release;
  }

  /** The orders after a placement are those after its last fill and release. */
  lemma PlacedOrders(s: Chain, id: Pubkey, r: Request)
    requires Fillable(s, id, r) && Ticks(s.books[id].market, r.terms.price) <= U64_MAX
    ensures Placed(s, id, r).books[id].orders == Ended(Start(s, id, r), r, Trades(s, id, r)).book.orders
  {
    hide Fillable, Ticks, Ended, Closed, Opened, Trades, Entered, FlushAll, PutBack, AllFlushed;
    FillableFacts(s, id, r);
    var o, trades := Start(s, id, r), Trades(s, id, r);
    SameTicks(s.books[id].market, o.book.market, r.terms.price);
    ClosedIs(o, r, trades, s.books[id].market.sequence[r.terms.branch]);
  }

  /** An order that gave up a quantity: that much less remains, that much more is filled. */
  predicate FilledBy(o: Order, p: Order, quantity: nat) {
    && p.terms == o.terms && p.sequence == o.sequence
    && p.remaining == o.remaining - quantity && p.filled == o.filled + quantity
    && p.status == (if p.remaining == 0 then FILLED else LIVE)
  }

  /** Settling the queue fills each maker by its own quantity, the taker by their total, and no
      other order at all. */
  lemma EndedFills(o: Flight, r: Request, trades: seq<Trade>, scale: nat, parts: Parts)
    requires Steady(o) && Queued(o.book, r, trades, scale, parts) && Entered(o.book, r)
    ensures var before, after := o.book.orders, Ended(o, r, trades).book.orders;
            && after.Keys == before.Keys
            && (forall t | t in trades ::
                  && Maker(r, t) in before && Maker(r, t) != r.Key()
                  && FilledBy(before[Maker(r, t)], after[Maker(r, t)], t.quantity))
            && (forall k | k in before && k != r.Key() && (forall t | t in trades :: Maker(r, t) != k) ::
                  after[k] == before[k])
            && after[r.Key()].filled == before[r.Key()].filled + Total(trades)
  {
    hide Steady, SettleAll, Finished, OrderTerms.Asset, FilledBy, TakerReady, MakerReady, Traded;
    SettleAllFillsMakers(o, r, trades, scale, parts);
    SettleAllFillsTaker(o, r, trades, scale, parts);
    var g := SettleAll(o, trades).book;
    FinishedOthers(g, r, r.Key());
    forall t | t in trades
      ensures Maker(r, t) in o.book.orders && Maker(r, t) != r.Key()
      ensures FilledBy(o.book.orders[Maker(r, t)], Finished(g, r).orders[Maker(r, t)], t.quantity)
    {
      ReadyMaker(o.book, r, t);
      TradedFills(r, o.book.orders[Maker(r, t)], t);
      FinishedOthers(g, r, Maker(r, t));
    }
    forall k | k in o.book.orders && k != r.Key() && (forall t | t in trades :: Maker(r, t) != k)
      ensures Finished(g, r).orders[k] == o.book.orders[k]
    {
      FinishedOthers(g, r, k);
    }
  }

  lemma FreshKey(s: Chain, id: Pubkey, r: Request)
    requires Fillable(s, id, r)
    ensures r.Key() !in s.books[id].orders
  {
    hide Fillable, Entry;
    FillableFacts(s, id, r);
    EntryFacts(s, id, r);
  }

  lemma TakerStartsEmpty(s: Chain, id: Pubkey, r: Request)
    requires Fillable(s, id, r)
    ensures Start(s, id, r).book.orders == s.books[id].orders[r.Key() := TakerOrder(s, id, r)]
    ensures TakerOrder(s, id, r).filled == 0
  {
    hide Fillable, Opened;
  }

  lemma TradedFills(r: Request, o: Order, t: Trade)
    requires o.status == LIVE && t.quantity <= o.remaining
    ensures FilledBy(o, Traded(r, o, t), t.quantity)
  {
  }

  lemma PickIsTraded(s: Chain, id: Pubkey, r: Request, p: Pick)
    requires Fillable(s, id, r) && p in Picks(s, id, r)
    ensures p.key in s.books[id].orders
    ensures TradeOf(s.books[id].market, s.config, r, s.books[id].orders[p.key], p) in Trades(s, id, r)
  {
    hide Fillable, Survivors, TradeOf;
    FillableFacts(s, id, r);
    var picks := Picks(s, id, r);
    var i :| 0 <= i < |picks| && picks[i] == p;
    assert Trades(s, id, r)[i] == TradeOf(s.books[id].market, s.config, r, s.books[id].orders[p.key], p);
  }

  lemma TradeNames(m: Market, config: Config, r: Request, o: Order, p: Pick)
    ensures var t := TradeOf(m, config, r, o, p); Maker(r, t) == p.key && t.quantity == p.quantity
  {
    hide RawFor, TradedBase;
  }

  lemma ReadyMaker(b: Book, r: Request, t: Trade)
    requires MakerReady(b, r, t)
    ensures Maker(r, t) in b.orders && Maker(r, t) != r.Key() && b.orders[Maker(r, t)].status == LIVE
    ensures t.quantity <= b.orders[Maker(r, t)].remaining
  {
    hide Improvement, Surplus, Floor, OrderTerms.Collateral;
  }

  /** A placement fills each surviving maker by exactly its reviewed quantity, the taker by
      their total, and no other order at all. */
  lemma PlacementFills(s: Chain, id: Pubkey, r: Request)
    requires Inv(s) && Fillable(s, id, r)
    ensures Ticks(s.books[id].market, r.terms.price) <= U64_MAX
    ensures var before, after := s.books[id].orders, Placed(s, id, r).books[id].orders;
            && after.Keys == before.Keys + {r.Key()}
            && (forall p | p in Picks(s, id, r) ::
                  p.key in before && p.key in after && FilledBy(before[p.key], after[p.key], p.quantity))
            && (forall k | k in before && (forall p | p in Picks(s, id, r) :: p.key != k) :: after[k] == before[k])
            && after[r.Key()].filled == TotalPicked(Picks(s, id, r))
  {
    hide Inv, Fillable, Ticks, Queued, Steady, Opened, Trades, Picks, Ended, Entered, Placed, TakerOrder, Framed,
      OnlyRestingBut, FilledBy, TradeOf, Start;
    FillableFacts(s, id, r);
    TicksRecord(s, id, r);
    StartReady(s, id, r);
    PlacedOrders(s, id, r);
    FreshKey(s, id, r);
    TakerStartsEmpty(s, id, r);
    TotalOfTrades(s, id, r);
    var o, trades := Start(s, id, r), Trades(s, id, r);
    EndedFills(o, r, trades, ScaleOf(s.books[id].market, r), PartsOf(r));
    var orders := s.books[id].orders;
    forall p | p in Picks(s, id, r)
      ensures p.key in orders && FilledBy(orders[p.key], Ended(o, r, trades).book.orders[p.key], p.quantity)
    {
      PickIsTraded(s, id, r, p);
      TradeNames(s.books[id].market, s.config, r, orders[p.key], p);
    }
    forall k | k in orders && (forall p | p in Picks(s, id, r) :: p.key != k)
      ensures Ended(o, r, trades).book.orders[k] == orders[k]
    {
      forall t | t in trades
        ensures Maker(r, t) != k
      {
        var p := TradeAt(s, id, r, t);
        TradeNames(s.books[id].market, s.config, r, orders[p.key], p);
      }
    }
  }
}
