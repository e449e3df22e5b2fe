/** Accounts outlive what needs them: in every run, each order's recipient has a wallet and a trader
    record, and whoever funded an order from a pool has its credit account there. */
module Accounts {
  import opened Exact
  import opened Rules
  import opened Sums
  import opened Conversion
  import opened State
  import opened Settlement
  import opened InFlight
  import opened Matching
  import opened Chain
  import opened Exchange
  import opened Placing
  import opened Completion
  import opened Positions
  import opened Releases
  import opened Custody
  import opened Pools
  import opened Governance
  import opened Protocol
  import opened Aging

  ghost predicate HostedOrder(s: Chain, b: Book, key: OrderKey)
    requires key in b.orders
  {
    var t := b.orders[key].terms;
    && t.recipient in b.wallets
    && (t.funding == 0 && t.Collateral() < COLLATERALS
        ==> t.Collateral() <= b.market.bases && CreditKey(b.market.mints[t.Collateral()], key.owner) in s.credits)
  }

  ghost predicate Hosted(s: Chain) {
    forall id, k | id in s.books && k in s.books[id].orders :: HostedOrder(s, s.books[id], k)
  }

  /** No account of a market disappears, and its listed mints stay. */
  ghost predicate BookGrows(b: Book, r: Book) {
    && b.wallets.Keys <= r.wallets.Keys && b.market.bases <= r.market.bases
    && forall c | 0 <= c <= b.market.bases && c < COLLATERALS :: r.market.mints[c] == b.market.mints[c]
  }

  ghost predicate Grow(s: Chain, r: Chain) {
    && s.credits.Keys <= r.credits.Keys && s.books.Keys <= r.books.Keys
    && (forall id | id in s.books :: BookGrows(s.books[id], r.books[id]))
    && (forall id | id in r.books && id !in s.books :: r.books[id].orders == map[])
  }

  lemma OneBookGrows(s: Chain, r: Chain, id: Pubkey)
    requires id in s.books && id in r.books && r.books == s.books[id := r.books[id]] && s.credits.Keys <= r.credits.Keys
    requires BookGrows(s.books[id], r.books[id])
    ensures Grow(s, r)
  {
  }

  lemma LedgerStepGrows(s: Chain, a: Action)
    requires Can(s, a)
    requires a.ListPool? || a.OpenCredit? || a.DepositPool? || a.WithdrawPool? || a.Donate? || a.Configure? || a.Pause?
             || a.InvalidateNonce? || a.Tick?
    ensures Grow(s, After(s, a))
  {
    hide Admissible, Placed, CanCancel, CanProcess, Processed, CanSplit, CanMerge, CanRedeem, Repositioned, CanDeposit,
      CanWithdraw, CanTransfer, CanClaimFees, CanShift, Moved, Transferred, Shifted, CanCreate, CanAddBase, CanSetBase,
      CanResolve, CanInitializeClaims, Created, Listing, Activated, Resolved, ClaimsInitialized, LifecycleStep,
      Remarketed, WalletOpened;
  }

  lemma MarketStepGrows(s: Chain, a: Action)
    requires Can(s, a)
    requires a.CreateMarket? || a.AddBase? || a.SetBase? || a.Lifecycle? || a.Resolve? || a.InitializeClaims?
             || a.InitializeWallet?
    ensures Grow(s, After(s, a))
  {
    hide Admissible, Placed, CanCancel, CanProcess, Processed,
      CanSplit, CanMerge, CanRedeem, Repositioned,
      CanDeposit, CanWithdraw, CanTransfer, CanClaimFees, CanShift, Moved, Transferred, Shifted,
      CanDepositPool, CanWithdrawPool, Transacted, PoolListed, CreditOpened, Donated,
      ListingChecks, Scale, Market.Openable, Caps.Validate;
    if !a.CreateMarket? {
      OneBookGrows(s, After(s, a), a.id);
    }
  }

  lemma ClaimStepGrows(s: Chain, a: Action)
    requires Can(s, a)
    requires a.Deposit? || a.Withdraw? || a.TransferCredit? || a.ClaimFees? || a.Shift?
    ensures Grow(s, After(s, a))
  {
    hide Admissible, Placed, CanCancel, CanProcess, Processed, CanSplit, CanMerge, CanRedeem, Repositioned, CanCreate,
      CanAddBase, CanSetBase, CanResolve, CanInitializeClaims, Created, Listing, Activated, Resolved, ClaimsInitialized,
      CanDepositPool, CanWithdrawPool, Transacted, PoolListed, CreditOpened, Donated, ClaimMove, Vaulted, External,
      ClaimIndex, LifecycleStep, Remarketed, WalletOpened, Grow;
    OneBookGrows(s, After(s, a), a.id);
  }

  lemma PositionStepGrows(s: Chain, a: Action)
    requires Can(s, a) && (a.Split? || a.Merge? || a.Redeem?)
    ensures Grow(s, After(s, a))
  {
    hide Admissible, Placed, CanCancel, CanProcess, Processed, CanDeposit, CanWithdraw, CanTransfer, CanClaimFees,
      CanShift, Moved, Transferred, Shifted, CanCreate, CanAddBase, CanSetBase, CanResolve, CanInitializeClaims,
      Created, Listing, Activated, Resolved, ClaimsInitialized, CanDepositPool, CanWithdrawPool, Transacted, PoolListed,
      CreditOpened, Donated, Position, Exposable, Redemption, Holds, Market.Ready, LifecycleStep, Remarketed,
      WalletOpened, Grow;
    OneBookGrows(s, After(s, a), a.id);
  }

  lemma PlainStepGrows(s: Chain, a: Action)
    requires Can(s, a) && !a.Place? && !a.Cancel? && !a.ProcessOrders?
    ensures Grow(s, After(s, a))
  {
    hide Can, After, Grow;
    if a.Split? || a.Merge? || a.Redeem? {
      PositionStepGrows(s, a);
    } else if a.Deposit? || a.Withdraw? || a.TransferCredit? || a.ClaimFees? || a.Shift? {
      ClaimStepGrows(s, a);
    } else if a.CreateMarket? || a.AddBase? || a.SetBase? || a.Lifecycle? || a.Resolve? || a.InitializeClaims?
              || a.InitializeWallet? {
      MarketStepGrows(s, a);
    } else {
      LedgerStepGrows(s, a);
    }
  }

  lemma PlacedGrows(s: Chain, id: Pubkey, r: Request)
    requires Inv(s) && Fillable(s, id, r)
    ensures Ticks(s.books[id].market, r.terms.price) <= U64_MAX && Grow(s, Placed(s, id, r))
  {
    hide Inv, Fillable, Ticks, Opened, Ended, Trades, FlushAll, PutBack, AllFlushed, Entered, Grow;
    FillableFacts(s, id, r);
    PlacedAccounts(s, id, r);
    OneBookGrows(s, Placed(s, id, r), id);
  }

  lemma ProcessedGrows(s: Chain, id: Pubkey, frames: seq<Frame>, keys: seq<OrderKey>, retire: bool)
    requires Inv(s) && id in s.books && FramesOk(s.credits, s.books[id], frames)
             && Refundable(s.books[id], frames, keys)
    ensures Grow(s, Processed(s, id, frames, keys, retire))
  {
    hide Inv, FramesOk, Batch, FlushAll, PutBack, AllFlushed, Grow, Refundable;
    ProcessedSound(s, id, frames, keys, retire);
    OneBookGrows(s, Processed(s, id, frames, keys, retire), id);
  }

  lemma OrderStepGrows(s: Chain, a: Action)
    requires Inv(s) && Can(s, a) && (a.Place? || a.Cancel? || a.ProcessOrders?)
    ensures Grow(s, After(s, a))
  {
    hide CanSplit, CanMerge, CanRedeem, Repositioned, CanDeposit, CanWithdraw, CanTransfer, CanClaimFees, CanShift,
      Moved, Transferred, Shifted, CanCreate, CanAddBase, CanSetBase, CanResolve, CanInitializeClaims, Created, Listing,
      Activated, Resolved, ClaimsInitialized, CanDepositPool, CanWithdrawPool, Transacted, PoolListed, CreditOpened,
      Donated, LifecycleStep, Remarketed, WalletOpened, Inv, Admissible, FramesOk, Refundable, Flushing, Closing, Batch,
      Ticks, Retirable, Delisted, Releasable, Grow, Processed, Placed;
    match a
    case Place(id, request) =>
      AdmissibleIsFillable(s, id, request);
      PlacedGrows(s, id, request);
    case Cancel(id, actor, granted, key, frames) =>
      CancelRefunds(s, id, actor, granted, key, frames);
      ProcessedGrows(s, id, frames, [key], false);
    case ProcessOrders(id, actor, owner, granted, frames, keys, retire) => ProcessedGrows(s, id, frames, keys, retire);
  }

  /** A placed order's recipient takes part; if a pool funds it, its owner's credit was presented. */
  lemma TakerIsHosted(s: Chain, id: Pubkey, r: Request)
    requires Inv(s) && Fillable(s, id, r)
    ensures r.terms.recipient in s.books[id].wallets
    ensures r.terms.funding == 0 && r.terms.Collateral() < COLLATERALS
            ==> r.terms.Collateral() <= s.books[id].market.bases
                && CreditKey(s.books[id].market.mints[r.terms.Collateral()], r.owner) in s.credits
  {
    hide Inv, Entry, Fillable, ReservedFor, LegOpen, FramesPresented, BoundNonce, Caps.ValidateOrder, SingleBase,
      RawUnits, MultiplierParts;
    FillableFacts(s, id, r);
    EntryFacts(s, id, r);
    TakerTerms(s, id, r);
    Reservation(s, id, r);
    CollateralListed(s.books[id].market, r.terms);
    FundedIsAvailable(s, id, r);
  }

  lemma FundedIsAvailable(s: Chain, id: Pubkey, r: Request)
    requires Fillable(s, id, r)
    ensures ReservedFor(s.books[id].market, r).value <= AvailableTo(s, s.books[id], r)
  {
    hide Entry, Reviewed, ReservedFor, AvailableTo, WellFilled;
  }

  lemma OrdersKeepTerms(s: Chain, a: Action, id: Pubkey, k: OrderKey)
    requires Inv(s) && Can(s, a) && id in s.books && id in After(s, a).books
    requires k in After(s, a).books[id].orders && k in s.books[id].orders
    ensures After(s, a).books[id].orders[k].terms == s.books[id].orders[k].terms
  {
    hide Inv, Can, After;
    StepAges(s, a);
    assert BookAges(s, id, After(s, a).books[id]);
  }

  /** Only a placement opens an order: its own. */
  lemma NewOrderIsPlaced(s: Chain, a: Action, id: Pubkey, k: OrderKey)
    requires Inv(s) && Can(s, a) && id in s.books && id in After(s, a).books
    requires k in After(s, a).books[id].orders && k !in s.books[id].orders
    ensures a.Place? && a.id == id && a.request.Key() == k
    ensures Fillable(s, id, a.request) && After(s, a).books[id].orders[k].terms == a.request.terms
  {
    hide Inv, After, Can, Placed, Fillable, Admissible, Ticks, BookAges;
    if a.Place? {
      PlaceIs(s, a);
      AdmissibleIsFillable(s, a.id, a.request);
      PlacedOrderTerms(s, a.id, a.request);
    } else if a.Cancel? || a.ProcessOrders? {
      BatchOpensNothing(s, a, id);
    } else {
      PlainStepAges(s, a);
    }
  }

  lemma PlacedOrderTerms(s: Chain, id: Pubkey, r: Request)
    requires Inv(s) && Fillable(s, id, r)
    ensures Ticks(s.books[id].market, r.terms.price) <= U64_MAX
    ensures var after := Placed(s, id, r).books[id].orders;
            after.Keys == s.books[id].orders.Keys + {r.Key()} && r.Key() in after && after[r.Key()].terms == r.terms
  {
    hide Inv, Fillable, Ticks, Opened, Trades, Ended, Placed, Entered;
    FillableFacts(s, id, r);
    PlacementFills(s, id, r);
    PlacedOrders(s, id, r);
    EnteredTerms(Ended(Start(s, id, r), r, Trades(s, id, r)).book, r);
  }

  lemma EnteredTerms(b: Book, r: Request)
    requires Entered(b, r)
    ensures r.Key() in b.orders && b.orders[r.Key()].terms == r.terms
  {
  }

  lemma BatchOpensNothing(s: Chain, a: Action, id: Pubkey)
    requires Inv(s) && Can(s, a) && (a.Cancel? || a.ProcessOrders?) && id in s.books && id in After(s, a).books
    ensures After(s, a).books[id].orders.Keys <= s.books[id].orders.Keys
  {
    hide Inv, FramesOk, Refundable, Retirable, Delisted, Releasable, Admissible, Placed, CanSplit, CanMerge, CanRedeem,
      Repositioned, CanDeposit, CanWithdraw, CanTransfer, CanClaimFees, CanShift, Moved, Transferred, Shifted,
      CanCreate, CanAddBase, CanSetBase, CanResolve, CanInitializeClaims, Created, Listing, Activated, Resolved,
      ClaimsInitialized, CanDepositPool, CanWithdrawPool, Transacted, PoolListed, CreditOpened, Donated, LifecycleStep,
      Remarketed, WalletOpened, HydrateAll, FlushAll, PutBack, AllFlushed, ReleaseEach, RemoveEach, Available;
  }

  lemma StepKeepsHosted(s: Chain, a: Action)
    requires Inv(s) && Hosted(s) && Can(s, a)
    ensures Hosted(After(s, a))
  {
    hide Inv, Can, After, Fillable, OrderTerms.Collateral;
    var r := After(s, a);
    if a.Place? || a.Cancel? || a.ProcessOrders? { OrderStepGrows(s, a); } else { PlainStepGrows(s, a); }
    forall id, k | id in r.books && k in r.books[id].orders
      ensures HostedOrder(r, r.books[id], k)
    {
      assert id in s.books && BookGrows(s.books[id], r.books[id]);
      if k in s.books[id].orders {
        OrdersKeepTerms(s, a, id, k);
        assert HostedOrder(s, s.books[id], k);
      } else {
        NewOrderIsPlaced(s, a, id, k);
        TakerIsHosted(s, id, a.request);
      }
    }
  }

  /** Over any run, whatever an open order needs to be filled, paid and refunded is there. */
  lemma {:induction false} RunKeepsHosted(states: seq<Chain>, actions: seq<Action>, i: nat)
    requires Run(states, actions) && Initial(states[0]) && i < |states|
    ensures Hosted(states[i])
  {
    hide Inv, Can, After, Hosted, Ages;
    if i == 0 {
      NothingHosted(states[0]);
    } else {
      RunKeepsHosted(states, actions, i - 1);
      RunStep(states, actions, i - 1);
      StepKeepsHosted(states[i - 1], actions[i - 1]);
    }
  }

  lemma NothingHosted(s: Chain)
    requires Initial(s)
    ensures Hosted(s)
  {
  }
}
