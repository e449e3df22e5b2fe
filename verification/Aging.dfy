/** How a deployment ages: clocks, nonces and closed markets only move one way, orders only
    shrink, and an order's identity is never used twice. */
module Aging {
  import opened Exact
  import opened Rules
  import opened Sums
  import opened Conversion
  import opened State
  import opened Settlement
  import opened InFlight
  import opened Matching
  import opened Chain
  import opened Exchange
  import opened Placing
  import opened Completion
  import opened Positions
  import opened Releases
  import opened Custody
  import opened Pools
  import opened Governance
  import opened Protocol

  /** The same order later: filled further, released, or as it was. */
  predicate Later(o: Order, p: Order) {
    && p.terms == o.terms && p.sequence == o.sequence
    && p.remaining <= o.remaining && p.filled >= o.filled
    && (o.status != LIVE ==> p == o)
  }

  /** An order identity no placement can use any more: its account exists, its market can never
      trade again, or its salt binds a nonce its owner has invalidated. */
  predicate Spent(s: Chain, id: Pubkey, key: OrderKey) {
    && id in s.books
    && (key in s.books[id].orders || PermanentlyClosed(s.books[id].market, s.now)
        || (BoundNonce(key.salt).Some? && key.owner in s.traders && BoundNonce(key.salt).value < s.traders[key.owner]))
  }

  predicate ClosedState(m: Market) {
    m.state == FROZEN || m.state == AWAITING || m.state == REDEEMABLE || m.state == ARCHIVED
  }

  /** One market's orders in two states of a run, the second with the given records around it. */
  ghost predicate BookAges(s: Chain, id: Pubkey, r: Book)
    requires id in s.books
  {
    var b := s.books[id];
    && r.market.terms == b.market.terms && (ClosedState(b.market) ==> ClosedState(r.market))
    && (forall k | k in b.orders ::
          if k in r.orders then Later(b.orders[k], r.orders[k])
          else k.owner in s.traders && Retirable(b.market, s.now, b.orders[k].terms, s.traders[k.owner]))
    && (forall k | k in r.orders && k !in b.orders :: !Spent(s, id, k))
  }

  ghost predicate Ages(s: Chain, r: Chain) {
    && s.now <= r.now
    && (forall o | o in s.traders :: o in r.traders && s.traders[o] <= r.traders[o])
    && (forall id | id in s.books :: id in r.books && BookAges(s, id, r.books[id]))
  }

  lemma StillBook(s: Chain, id: Pubkey, r: Book)
    requires id in s.books && r.orders == s.books[id].orders && r.market.terms == s.books[id].market.terms
    requires ClosedState(s.books[id].market) ==> ClosedState(r.market)
    ensures BookAges(s, id, r)
  {
  }

  // ---------------------------------------------------------- orders of a placement

  /** A trade only shrinks its maker's order. */
  lemma TradedLater(r: Request, o: Order, t: Trade)
    requires o.status == LIVE && t.quantity <= o.remaining
    ensures Later(o, Traded(r, o, t))
  {
  }

  lemma SettledLater(o: Flight, r: Request, trades: seq<Trade>, scale: nat, parts: Parts, k: OrderKey)
    requires Steady(o) && Queued(o.book, r, trades, scale, parts) && k in o.book.orders && k != r.Key()
    ensures k in SettleAll(o, trades).book.orders && Later(o.book.orders[k], SettleAll(o, trades).book.orders[k])
  {
    hide Steady, SettleAll, Later, TakerReady;
    SettleAllFillsMakers(o, r, trades, scale, parts);
    if t :| t in trades && Maker(r, t) == k {
      MakerIsLive(o.book, r, t);
      TradedLater(r, o.book.orders[k], t);
    } else {
      StillLater(o.book.orders[k]);
    }
  }

  lemma MakerIsLive(b: Book, r: Request, t: Trade)
    requires MakerReady(b, r, t)
    ensures Maker(r, t) in b.orders && b.orders[Maker(r, t)].status == LIVE
            && t.quantity <= b.orders[Maker(r, t)].remaining
  {
    hide Improvement, Surplus, Floor, OrderTerms.Collateral;
  }

  lemma StillLater(o: Order)
    ensures Later(o, o)
  {
  }

  lemma EndedLater(o: Flight, r: Request, trades: seq<Trade>, scale: nat, parts: Parts)
    requires Steady(o) && Queued(o.book, r, trades, scale, parts) && Entered(o.book, r)
    ensures var e := Ended(o, r, trades).book;
            && e.orders.Keys == o.book.orders.Keys
            && forall k | k in o.book.orders && k != r.Key() :: Later(o.book.orders[k], e.orders[k])
  {
    hide Steady, Queued, SettleAll, Later, Release, OrderTerms.Asset;
    forall k | k in o.book.orders && k != r.Key()
      ensures Later(o.book.orders[k], Ended(o, r, trades).book.orders[k])
    {
      SettledLater(o, r, trades, scale, parts, k);
    }
  }

  lemma FlushKeepsOrders(b: Book, frames: seq<Frame>)
    requires FramesIn(b, frames)
    ensures FlushAll(b, frames, |frames|).orders == b.orders && FlushAll(b, frames, |frames|).market == b.market
  {
    hide FlushAll;
  }

  /** The orders a placement leaves: its own, and every other at most shrunk. */
  lemma PlacedAges(s: Chain, id: Pubkey, r: Request)
    requires Inv(s) && Admissible(s, id, r)
    ensures Ticks(s.books[id].market, r.terms.price) <= U64_MAX
    ensures r.Key() in Placed(s, id, r).books[id].orders
    ensures BookAges(s, id, Placed(s, id, r).books[id])
  {
    hide Inv, Fillable, Ticks, Admissible, Steady, Queued, Ended, Closed, Opened, Later, Trades, Entered, FlushAll,
      PutBack, Framed, OnlyRestingBut, OnlyResting, AllFlushed, Spent, Retirable, Ledgers.Liability;
    AdmissibleIsFillable(s, id, r);
    FillableFacts(s, id, r);
    StartReady(s, id, r);
    ClosingKeeps(s, id, r);
    var o, trades := Start(s, id, r), Trades(s, id, r);
    EndedLater(o, r, trades, ScaleOf(s.books[id].market, r), PartsOf(r));
    ClosedIs(o, r, trades, s.books[id].market.sequence[r.terms.branch]);
    FlushKeepsOrders(Closing(s, id, r), r.frames);
    SpentCannotPlace(s, id, r);
  }

  /** A spent identity cannot be placed. */
  lemma SpentCannotPlace(s: Chain, id: Pubkey, r: Request)
    requires Entry(s, id, r).Done?
    ensures !Spent(s, id, r.Key())
  {
    hide LegOpen, SingleBase, BoundNonce, Caps.ValidateOrder, FramesPresented, TermsShape, Guard;
  }

  // ---------------------------------------------------------- orders of a batch

  lemma {:induction false} ReleasedLater(b: Book, keys: seq<OrderKey>, n: nat, k: OrderKey)
    requires n <= |keys| && OrdersOk(b) && k in b.orders
    ensures Later(b.orders[k], ReleaseEach(b, keys, n).orders[k]) && OrdersShape(ReleaseEach(b, keys, n).orders[k])
  {
    hide ReleaseNext, Later, OrdersShape, OrdersOk;
    if n == 0 {
      CountersOk(b, k);
    } else {
      ReleasedLater(b, keys, n - 1, k);
      var before := ReleaseEach(b, keys, n - 1);
      ReleaseNextLater(before, keys[n - 1], k);
      LaterStill(b.orders[k], before.orders[k], ReleaseEach(b, keys, n).orders[k]);
    }
  }

  lemma CountersOk(b: Book, k: OrderKey)
    requires OrdersOk(b) && k in b.orders
    ensures OrdersShape(b.orders[k]) && Later(b.orders[k], b.orders[k])
  {
    hide OrderTermsOk, Ceil;
    assert OrderOk(b.market, k, b.orders[k]);
  }

  lemma LaterStill(o: Order, p: Order, q: Order)
    requires Later(o, p) && Later(p, q)
    ensures Later(o, q)
  {
  }

  /** Counters of an order are not negative. */
  predicate OrdersShape(o: Order) {
    o.remaining >= 0 && o.filled >= 0
  }

  lemma ReleaseNextLater(b: Book, key: OrderKey, k: OrderKey)
    requires k in b.orders && OrdersShape(b.orders[k])
    ensures Later(b.orders[k], ReleaseNext(b, key).orders[k]) && OrdersShape(ReleaseNext(b, key).orders[k])
  {
    hide Release, OrderTerms.Asset;
  }

  lemma {:induction false} RemovedKeys(b: Book, keys: seq<OrderKey>, n: nat)
    requires n <= |keys|
    ensures forall k | k in b.orders && k !in RemoveEach(b, keys, n).orders :: k in keys
  {
    if n > 0 {
      RemovedKeys(b, keys, n - 1);
    }
  }

  lemma ClearedAges(b: Book, keys: seq<OrderKey>, retire: bool)
    requires OrdersOk(b)
    ensures var r := Cleared(b, keys, retire);
            && r.orders.Keys <= b.orders.Keys
            && (forall k | k in r.orders :: Later(b.orders[k], r.orders[k]))
            && (forall k | k in b.orders && k !in r.orders :: retire && k in keys)
  {
    hide OrdersOk, Later, ReleaseEach, RemoveEach;
    var released := ReleaseEach(b, keys, |keys|);
    forall k | k in b.orders
      ensures Later(b.orders[k], released.orders[k])
    {
      ReleasedLater(b, keys, |keys|, k);
    }
    RemovedKeys(released, keys, |keys|);
  }

  /** A batch only shrinks orders, and closes only identities that are spent for good. */
  lemma ProcessedAges(s: Chain, id: Pubkey, frames: seq<Frame>, keys: seq<OrderKey>, retire: bool)
    requires Inv(s) && id in s.books && FramesOk(s.credits, s.books[id], frames)
    requires retire ==> forall k | k in keys && k in s.books[id].orders ::
               k.owner in s.traders && Retirable(s.books[id].market, s.now, s.books[id].orders[k].terms,
                                                 s.traders[k.owner])
    ensures BookAges(s, id, Processed(s, id, frames, keys, retire).books[id])
    ensures Processed(s, id, frames, keys, retire).books[id].market == s.books[id].market
    ensures Processed(s, id, frames, keys, retire).books[id].orders.Keys <= s.books[id].orders.Keys
  {
    hide Inv, FlushAll, PutBack, FramesOk, Cleared, HydrateAll, AllFlushed, Spent, Retirable, Later, BookOk, OrdersOk;
    InvBook(s, id);
    BookOrders(s.books[id]);
    FramesAreIn(s.credits, s.books[id], frames);
    var b := s.books[id];
    var h := HydrateAll(b, frames, Available(s.credits, b, frames), |frames|);
    assert OrdersOk(h) by { SameOrdersOk(b, h); }
    ClearedAges(h, keys, retire);
    FlushKeepsOrders(Batch(s, id, frames, keys, retire), frames);
  }

  lemma BookOrders(b: Book)
    requires Core(b)
    ensures OrdersOk(b)
  {
  }

  lemma SameOrdersOk(b: Book, r: Book)
    requires OrdersOk(b) && r.orders == b.orders && r.market == b.market
    ensures OrdersOk(r)
  {
    hide OrderOk;
  }

  // -------------------------------------------------------------------- steps

  ghost predicate SameBooks(s: Chain, r: Chain) {
    && s.books.Keys <= r.books.Keys
    && (forall id | id in s.books ::
          && r.books[id].orders == s.books[id].orders && SamePlacements(s.books[id].market, r.books[id].market)
          && (ClosedState(s.books[id].market) ==> ClosedState(r.books[id].market)))
    && (forall id | id in r.books && id !in s.books ::
          r.books[id].market.sequence == [0, 0] && r.books[id].orders == map[])
  }

  ghost predicate SamePlacements(m: Market, n: Market) {
    n.terms == m.terms && n.sequence == m.sequence && n.recent == m.recent
  }

  ghost predicate TimePasses(s: Chain, r: Chain) {
    && s.now <= r.now
    && (forall o | o in s.traders :: o in r.traders && s.traders[o] <= r.traders[o])
  }

  lemma SameBooksAge(s: Chain, r: Chain)
    requires SameBooks(s, r) && TimePasses(s, r)
    ensures Ages(s, r)
  {
    hide ClosedState, BookAges;
    forall id | id in s.books
      ensures BookAges(s, id, r.books[id])
    {
      StillBook(s, id, r.books[id]);
    }
  }

  lemma OneBook(s: Chain, r: Chain, id: Pubkey)
    requires id in s.books && id in r.books && r.books == s.books[id := r.books[id]]
    requires r.books[id].orders == s.books[id].orders && SamePlacements(s.books[id].market, r.books[id].market)
    requires ClosedState(s.books[id].market) ==> ClosedState(r.books[id].market)
    ensures SameBooks(s, r)
  {
    hide ClosedState, SamePlacements;
    forall k | k in s.books
      ensures SamePlacements(s.books[k].market, s.books[k].market)
    {
      StillPlaced(s.books[k].market);
    }
  }

  lemma StillPlaced(m: Market)
    ensures SamePlacements(m, m)
  {
  }

  lemma LedgerStepsKeepMarkets(s: Chain, a: Action)
    requires Can(s, a)
    requires a.ListPool? || a.OpenCredit? || a.DepositPool? || a.WithdrawPool? || a.Donate? || a.Configure? || a.Pause?
             || a.InvalidateNonce? || a.Tick?
    ensures After(s, a).books == s.books
  {
    hide Admissible, Placed, CanCancel, CanProcess, Processed, CanSplit, CanMerge, CanRedeem, Repositioned, CanDeposit,
      CanWithdraw, CanTransfer, CanClaimFees, CanShift, Moved, Transferred, Shifted, CanCreate, CanAddBase, CanSetBase,
      CanResolve, CanInitializeClaims, Created, Listing, Activated, Resolved, ClaimsInitialized, LifecycleStep,
      Remarketed, WalletOpened;
  }

  lemma LedgerStepTakesTime(s: Chain, a: Action)
    requires Can(s, a)
    requires a.ListPool? || a.OpenCredit? || a.DepositPool? || a.WithdrawPool? || a.Donate? || a.Configure? || a.Pause?
             || a.InvalidateNonce? || a.Tick?
    ensures TimePasses(s, After(s, a))
  {
    hide Admissible, Placed, CanCancel, CanProcess, Processed, CanSplit, CanMerge, CanRedeem, Repositioned, CanDeposit,
      CanWithdraw, CanTransfer, CanClaimFees, CanShift, Moved, Transferred, Shifted, CanCreate, CanAddBase, CanSetBase,
      CanResolve, CanInitializeClaims, Created, Listing, Activated, Resolved, ClaimsInitialized, LifecycleStep,
      Remarketed, WalletOpened;
  }

  lemma LedgerStepAges(s: Chain, a: Action)
    requires Can(s, a)
    requires a.ListPool? || a.OpenCredit? || a.DepositPool? || a.WithdrawPool? || a.Donate? || a.Configure? || a.Pause?
             || a.InvalidateNonce? || a.Tick?
    ensures SameBooks(s, After(s, a)) && TimePasses(s, After(s, a))
  {
    hide Can, After, TimePasses, ClosedState;
    LedgerStepsKeepMarkets(s, a);
    LedgerStepTakesTime(s, a);
  }

  lemma NewMarketAges(s: Chain, id: Pubkey, terms: Terms)
    requires id !in s.books
    ensures SameBooks(s, Created(s, id, terms))
  {
  }

  lemma MarketStepAges(s: Chain, a: Action)
    requires Can(s, a)
    requires a.CreateMarket? || a.AddBase? || a.SetBase? || a.Lifecycle? || a.Resolve? || a.InitializeClaims?
             || a.InitializeWallet?
    ensures SameBooks(s, After(s, a)) && TimePasses(s, After(s, a))
  {
    hide Admissible, Placed, CanCancel, CanProcess, Processed,
      CanSplit, CanMerge, CanRedeem, Repositioned,
      CanDeposit, CanWithdraw, CanTransfer, CanClaimFees, CanShift, Moved, Transferred, Shifted,
      CanDepositPool, CanWithdrawPool, Transacted, PoolListed, CreditOpened, Donated,
      ListingChecks, Scale, Market.Openable, Caps.Validate, NewBook, SameBooks;
    if a.CreateMarket? {
      NewMarketAges(s, a.id, a.terms);
    } else {
      OneBook(s, After(s, a), a.id);
    }
  }

  lemma ClaimStepAges(s: Chain, a: Action)
    requires Can(s, a)
    requires a.Deposit? || a.Withdraw? || a.TransferCredit? || a.ClaimFees? || a.Shift?
    ensures SameBooks(s, After(s, a)) && TimePasses(s, After(s, a))
  {
    hide Admissible, Placed, CanCancel, CanProcess, Processed, CanSplit, CanMerge, CanRedeem, Repositioned, CanCreate,
      CanAddBase, CanSetBase, CanResolve, CanInitializeClaims, Created, Listing, Activated, Resolved, ClaimsInitialized,
      CanDepositPool, CanWithdrawPool, Transacted, PoolListed, CreditOpened, Donated, ClaimMove, Vaulted, External,
      ClaimIndex, LifecycleStep, Remarketed, WalletOpened, SameBooks;
    OneBook(s, After(s, a), a.id);
  }

  lemma PositionStepAges(s: Chain, a: Action)
    requires Can(s, a) && (a.Split? || a.Merge? || a.Redeem?)
    ensures SameBooks(s, After(s, a)) && TimePasses(s, After(s, a))
  {
    hide Admissible, Placed, CanCancel, CanProcess, Processed, CanDeposit, CanWithdraw, CanTransfer, CanClaimFees,
      CanShift, Moved, Transferred, Shifted, CanCreate, CanAddBase, CanSetBase, CanResolve, CanInitializeClaims,
      Created, Listing, Activated, Resolved, ClaimsInitialized, CanDepositPool, CanWithdrawPool, Transacted, PoolListed,
      CreditOpened, Donated, Position, Exposable, Redemption, Holds, Market.Ready, LifecycleStep, Remarketed,
      WalletOpened, SameBooks;
    OneBook(s, After(s, a), a.id);
  }

  lemma PlainStepAges(s: Chain, a: Action)
    requires Can(s, a) && !a.Place? && !a.Cancel? && !a.ProcessOrders?
    ensures SameBooks(s, After(s, a)) && TimePasses(s, After(s, a))
  {
    hide Can, After, SameBooks, TimePasses;
    if a.Split? || a.Merge? || a.Redeem? {
      PositionStepAges(s, a);
    } else if a.Deposit? || a.Withdraw? || a.TransferCredit? || a.ClaimFees? || a.Shift? {
      ClaimStepAges(s, a);
    } else if a.CreateMarket? || a.AddBase? || a.SetBase? || a.Lifecycle? || a.Resolve? || a.InitializeClaims?
              || a.InitializeWallet? {
      MarketStepAges(s, a);
    } else {
      LedgerStepAges(s, a);
    }
  }

  lemma OrderStepAges(s: Chain, a: Action)
    requires Inv(s) && Can(s, a) && (a.Place? || a.Cancel? || a.ProcessOrders?)
    ensures var r := After(s, a);
            && r.now == s.now && r.traders == s.traders && r.books.Keys == s.books.Keys
            && BookAges(s, a.id, r.books[a.id])
            && (!a.Place? ==> r.books[a.id].market == s.books[a.id].market
                              && r.books[a.id].orders.Keys <= s.books[a.id].orders.Keys)
            && forall k | k in s.books && k != a.id :: r.books[k] == s.books[k]
  {
    hide CanSplit, CanMerge, CanRedeem, Repositioned, CanDeposit, CanWithdraw, CanTransfer, CanClaimFees, CanShift,
      Moved, Transferred, Shifted, CanCreate, CanAddBase, CanSetBase, CanResolve, CanInitializeClaims, Created, Listing,
      Activated, Resolved, ClaimsInitialized, CanDepositPool, CanWithdrawPool, Transacted, PoolListed, CreditOpened,
      Donated, LifecycleStep, Remarketed, WalletOpened, Inv, Admissible, FramesOk, Refundable, Flushing, Closing, Batch,
      Ticks, Retirable, Delisted, Releasable, BookAges;
    match a
    case Place(id, request) =>
      AdmissibleIsFillable(s, id, request);
      PlacedAges(s, id, request);
    case Cancel(id, actor, granted, key, frames) => ProcessedAges(s, id, frames, [key], false);
    case ProcessOrders(id, actor, owner, granted, frames, keys, retire) => ProcessedAges(s, id, frames, keys, retire);
  }

  lemma StepAges(s: Chain, a: Action)
    requires Inv(s) && Can(s, a)
    ensures Ages(s, After(s, a))
  {
    hide Inv, Can, After, BookAges;
    if a.Place? || a.Cancel? || a.ProcessOrders? {
      OrderStepAges(s, a);
      forall id | id in s.books
        ensures BookAges(s, id, After(s, a).books[id])
      {
        if id != a.id {
          StillBook(s, id, After(s, a).books[id]);
        }
      }
    } else {
      PlainStepAges(s, a);
      SameBooksAge(s, After(s, a));
    }
  }

  /** What is spent stays spent. */
  lemma SpentStays(s: Chain, r: Chain, id: Pubkey, key: OrderKey)
    requires Inv(s) && Ages(s, r) && Spent(s, id, key)
    ensures Spent(r, id, key)
  {
    hide AccountsOk, PoolsBalanced, BoundNonce, Core, Backed, LegsOk, LifecycleOk, ExposureCapped, UnlistedEmpty,
      OnlyResting, Drained, Later;
    assert BookAges(s, id, r.books[id]);
    if key in s.books[id].orders && key !in r.books[id].orders {
      InvBook(s, id);
      OrderSalt(s.books[id], key);
    }
  }

  lemma OrderSalt(b: Book, key: OrderKey)
    requires Core(b) && key in b.orders
    ensures b.orders[key].terms.salt == key.salt
  {
    hide OrderTermsOk;
    assert OrderOk(b.market, key, b.orders[key]);
  }

  // --------------------------------------------------------------------- runs

  lemma RunStep(states: seq<Chain>, actions: seq<Action>, i: nat)
    requires Run(states, actions) && Initial(states[0]) && i < |actions|
    ensures Inv(states[i]) && Can(states[i], actions[i]) && states[i + 1] == After(states[i], actions[i])
    ensures Ages(states[i], states[i + 1])
  {
    hide Inv, Can, After, Initial, Ages;
    RunKeepsInv(states, actions, i);
    assert Step(states[i], actions[i], states[i + 1]);
    StepAges(states[i], actions[i]);
  }

  /** An identity spent at one point of a run is spent at every later point. */
  lemma {:induction false} SpentForGood(states: seq<Chain>, actions: seq<Action>, i: nat, j: nat, id: Pubkey,
                                        key: OrderKey)
    requires Run(states, actions) && Initial(states[0]) && i <= j < |states| && Spent(states[i], id, key)
    ensures Spent(states[j], id, key)
  {
    hide Inv, Step, Initial, Spent, Ages, Can, After;
    if i < j {
      SpentForGood(states, actions, i, j - 1, id, key);
      RunStep(states, actions, j - 1);
      SpentStays(states[j - 1], states[j], id, key);
    }
  }

  /** Over a whole run an order identity is opened at most once: not even an order that was
      filled, cancelled and retired can be opened again under its salt. */
  lemma OpenedAtMostOnce(states: seq<Chain>, actions: seq<Action>, i: nat, j: nat)
    requires Run(states, actions) && Initial(states[0]) && i < j < |actions|
    requires actions[i].Place? && actions[j].Place? && actions[i].id == actions[j].id
    ensures actions[i].request.Key() != actions[j].request.Key()
  {
    hide Inv, Step, Initial, Spent, Ages, Can, After;
    var id, key := actions[i].id, actions[i].request.Key();
    RunStep(states, actions, i);
    RunStep(states, actions, j);
    PlacedIsSpent(states[i], actions[i]);
    SpentForGood(states, actions, i + 1, j, id, key);
    PlaceNeedsFresh(states[j], actions[j]);
  }

  lemma PlacedIsSpent(s: Chain, a: Action)
    requires Inv(s) && a.Place? && Can(s, a)
    ensures Spent(After(s, a), a.id, a.request.Key())
  {
    hide Inv, Can, After, Admissible, Placed, BookAges, BoundNonce, PermanentlyClosed, Ticks;
    PlaceIs(s, a);
    PlacedAges(s, a.id, a.request);
  }

  lemma PlaceNeedsFresh(s: Chain, a: Action)
    requires a.Place? && Can(s, a)
    ensures !Spent(s, a.id, a.request.Key())
  {
    hide Can, After, Admissible, Spent, Fillable, Entry;
    PlaceIs(s, a);
    AdmissibleIsFillable(s, a.id, a.request);
    FillableFacts(s, a.id, a.request);
    SpentCannotPlace(s, a.id, a.request);
  }
}
