/** Nobody's funds move but by their owner: no step of a deployment takes pool credit or claims from
    an owner that did not ask for it. */
module Owners {
  import opened Exact
  import opened Rules
  import opened Sums
  import opened Conversion
  import opened State
  import opened Settlement
  import opened InFlight
  import opened Matching
  import opened Chain
  import opened Exchange
  import opened Placing
  import opened Completion
  import opened Positions
  import opened Releases
  import opened Custody
  import opened Pools
  import opened Governance
  import opened Protocol
  import opened Aging
  import A = Accounts

  /** The owner that an instruction lets spend: withdraw, transfer, convert, or commit to an order. */
  predicate Spends(a: Action, o: Pubkey) {
    match a
    case WithdrawPool(_, owner, _, _, _) => owner == o
    case Withdraw(_, owner, _, _) => owner == o
    case TransferCredit(_, owner, _, _, _) => owner == o
    case Split(_, owner, _, _, _) => owner == o
    case Merge(_, owner, _, _) => owner == o
    case Redeem(_, owner, _, _, _) => owner == o
    case Place(_, request) => request.owner == o
    case _ => false
  }

  /** An owner has at least the pool credit of every mint and the claims of every market it had. */
  ghost predicate NotPoorer(s: Chain, r: Chain, o: Pubkey) {
    && (forall mint | CreditKey(mint, o) in s.credits ::
          CreditKey(mint, o) in r.credits && s.credits[CreditKey(mint, o)] <= r.credits[CreditKey(mint, o)])
    && (forall id | id in s.books && o in s.books[id].wallets ::
          id in r.books && KeepsClaims(s.books[id], r.books[id], o))
  }

  ghost predicate KeepsClaims(b: Book, r: Book, o: Pubkey)
    requires o in b.wallets
  {
    o in r.wallets && forall a | 0 <= a < ASSETS && IsClaim(a) :: b.wallets[o].balances[a] <= r.wallets[o].balances[a]
  }

  /** In flight an owner has at least what it had of everything. */
  ghost predicate Richer(b: Book, r: Book, o: Pubkey) {
    o in b.wallets ==>
      o in r.wallets && forall a | 0 <= a < ASSETS :: b.wallets[o].balances[a] <= r.wallets[o].balances[a]
  }

  lemma RicherStill(a: Book, b: Book, c: Book, o: Pubkey)
    requires Richer(a, b, o) && Richer(b, c, o)
    ensures Richer(a, c, o)
  {
  }

  // -------------------------------------------------------- frames give back

  lemma {:induction false} FlushSpares(b: Book, frames: seq<Frame>, n: nat, o: Pubkey, a: nat)
    requires n <= |frames| && FramesIn(b, frames) && o in b.wallets && a < ASSETS
    requires forall i | 0 <= i < n :: !Feeds(frames[i], o, a)
    ensures FlushAll(b, frames, n).wallets[o].balances[a] == b.wallets[o].balances[a]
  {
    hide Post;
    if n > 0 {
      FlushSpares(b, frames, n - 1, o, a);
      assert frames[n - 1] in frames && !Feeds(frames[n - 1], o, a);
      var before, f := FlushAll(b, frames, n - 1), frames[n - 1];
      PostMovesBalance(before, f.owner, Underlying(f.collateral),
                       -before.wallets[f.owner].balances[Underlying(f.collateral)],
                       o, a);
    }
  }

  /** A frame takes back all its owner's wallet holds. */
  lemma FrameReturns(b: Book, frames: seq<Frame>, i: nat)
    requires i < |frames| && FramesIn(b, frames) && Distinct(frames)
    ensures frames[i].owner in b.wallets && frames[i].collateral < COLLATERALS
    ensures Flushed(b, frames, i) == b.wallets[frames[i].owner].balances[Underlying(frames[i].collateral)]
  {
    hide FlushAll;
    assert frames[i] in frames;
    forall j | 0 <= j < i
      ensures !Feeds(frames[j], frames[i].owner, Underlying(frames[i].collateral))
    {
      assert frames[j] in frames && frames[j] != frames[i];
    }
    FlushSpares(b, frames, i, frames[i].owner, Underlying(frames[i].collateral));
  }

  /** Whoever is no poorer in flight gets back through its frames at least what they loaded. */
  lemma FramesReturn(s: Chain, id: Pubkey, frames: seq<Frame>, b: Book, o: Pubkey, mint: Pubkey)
    requires id in s.books && FramesOk(s.credits, s.books[id], frames) && MintsDistinct(s.books[id].market)
    requires FramesIn(s.books[id], frames) && FramesIn(b, frames) && Drained(s.books[id])
    requires Richer(HydrateAll(s.books[id], frames, Available(s.credits, s.books[id], frames), |frames|), b, o)
    ensures var after := PutBack(s.credits, s.books[id].market, frames, AllFlushed(b, frames), |frames|);
            CreditKey(mint, o) in s.credits ==>
              CreditKey(mint, o) in after && s.credits[CreditKey(mint, o)] <= after[CreditKey(mint, o)]
  {
    hide HydrateAll, PutBack, Drained;
    var before, key := s.books[id], CreditKey(mint, o);
    var available, values := Available(s.credits, before, frames), AllFlushed(b, frames);
    PutBackAt(s.credits, before, frames, values, |frames|, key);
    if key in s.credits {
      if i: nat :| i < |frames| && frames[i].collateral < COLLATERALS && KeyOf(before.market, frames[i]) == key {
        assert frames[i] in frames;
        HydrateFeeds(before, frames, available, |frames|, i);
        FrameReturns(b, frames, i);
      } else {
        forall i | 0 <= i < |frames|
          ensures KeyOf(before.market, frames[i]) != key
        {
          assert frames[i] in frames;
        }
      }
    }
  }

  /** Loading and flushing frames touches no claims. */
  lemma ClaimsBeside(s: Chain, id: Pubkey, frames: seq<Frame>, b: Book, o: Pubkey)
    requires id in s.books && FramesOk(s.credits, s.books[id], frames) && o in s.books[id].wallets
    requires FramesIn(s.books[id], frames) && FramesIn(b, frames)
    requires Richer(HydrateAll(s.books[id], frames, Available(s.credits, s.books[id], frames), |frames|), b, o)
    ensures KeepsClaims(s.books[id], FlushAll(b, frames, |frames|), o)
  {
    hide HydrateAll, FlushAll;
    var before, available := s.books[id], Available(s.credits, s.books[id], frames);
    forall a | 0 <= a < ASSETS && IsClaim(a)
      ensures before.wallets[o].balances[a] <= FlushAll(b, frames, |frames|).wallets[o].balances[a]
    {
      HydrateSkips(before, frames, available, |frames|, o, a);
      FlushSpares(b, frames, |frames|, o, a);
    }
  }

  lemma RoundTripSpares(s: Chain, id: Pubkey, frames: seq<Frame>, b: Book, o: Pubkey, r: Chain)
    requires Inv(s) && id in s.books && FramesOk(s.credits, s.books[id], frames)
    requires FramesIn(s.books[id], frames) && FramesIn(b, frames)
    requires Richer(HydrateAll(s.books[id], frames, Available(s.credits, s.books[id], frames), |frames|), b, o)
    requires r == s.(books := s.books[id := FlushAll(b, frames, |frames|)],
                     credits := PutBack(s.credits, s.books[id].market, frames, AllFlushed(b, frames), |frames|))
    ensures NotPoorer(s, r, o)
  {
    hide Inv, FramesOk, HydrateAll, FlushAll, PutBack, AllFlushed, Richer, BookOk, KeepsClaims, Drained;
    InvBook(s, id);
    BookDrained(s.books[id]);
    forall mint | CreditKey(mint, o) in s.credits
      ensures CreditKey(mint, o) in r.credits && s.credits[CreditKey(mint, o)] <= r.credits[CreditKey(mint, o)]
    {
      FramesReturn(s, id, frames, b, o, mint);
    }
    forall k | k in s.books && o in s.books[k].wallets
      ensures k in r.books && KeepsClaims(s.books[k], r.books[k], o)
    {
      if k == id {
        ClaimsBeside(s, id, frames, b, o);
      } else {
        ClaimsStay(s.books[k], o);
      }
    }
  }

  lemma ClaimsStay(b: Book, o: Pubkey)
    requires o in b.wallets
    ensures KeepsClaims(b, b, o)
  {
  }

  lemma BookDrained(b: Book)
    requires BookOk(b)
    ensures Drained(b) && MintsDistinct(b.market)
  {
    hide Core, Backed, LifecycleOk, ExposureCapped, UnlistedEmpty, OnlyResting, LegOk, Drained;
  }

  // ------------------------------------------------------------------ batches

  lemma ReleasePays(b: Book, key: OrderKey, o: Pubkey)
    requires key in b.orders && key.owner in b.wallets && b.orders[key].terms.Asset() < ASSETS
             && b.orders[key].reserved >= 0
    ensures Richer(b, Release(b, key), o)
  {
    hide OrderTerms.Asset;
  }

  ghost predicate ReservesKept(b: Book) {
    forall k | k in b.orders :: b.orders[k].reserved >= 0
  }

  lemma {:induction false} ReleasesPay(b: Book, keys: seq<OrderKey>, n: nat, o: Pubkey)
    requires n <= |keys| && ReservesKept(b)
    ensures Richer(b, ReleaseEach(b, keys, n), o) && ReservesKept(ReleaseEach(b, keys, n))
  {
    hide Richer, Release, OrderTerms.Asset;
    if n == 0 {
      StillRich(b, o);
    } else {
      ReleasesPay(b, keys, n - 1, o);
      var before, key := ReleaseEach(b, keys, n - 1), keys[n - 1];
      if key in before.orders && before.orders[key].status == LIVE && key.owner in before.wallets
         && before.orders[key].terms.Asset() < ASSETS {
        ReleasePays(before, key, o);
        RicherStill(b, before, Release(before, key), o);
      }
    }
  }

  lemma StillRich(b: Book, o: Pubkey)
    ensures Richer(b, b, o)
  {
  }

  lemma ReservesAreKept(b: Book)
    requires Core(b)
    ensures ReservesKept(b)
  {
    hide Balanced, NonNegative, TermsOk, OrderTermsOk, Ceil;
    forall k | k in b.orders
      ensures b.orders[k].reserved >= 0
    {
      assert OrderOk(b.market, k, b.orders[k]);
    }
  }

  lemma BatchSpares(s: Chain, id: Pubkey, frames: seq<Frame>, keys: seq<OrderKey>, retire: bool, o: Pubkey)
    requires Inv(s) && id in s.books && FramesOk(s.credits, s.books[id], frames)
    ensures NotPoorer(s, Processed(s, id, frames, keys, retire), o)
  {
    hide Inv, FramesOk, HydrateAll, FlushAll, PutBack, AllFlushed, Richer, NotPoorer, BookOk, ReleaseEach, RemoveEach,
      FramesIn;
    var b := s.books[id];
    InvBook(s, id);
    FramesAreIn(s.credits, b, frames);
    ReservesAreKept(b);
    var h := HydrateAll(b, frames, Available(s.credits, b, frames), |frames|);
    ReleasesPay(h, keys, |keys|, o);
    ClearedSpares(h, keys, retire, o);
    RoundTripSpares(s, id, frames, Batch(s, id, frames, keys, retire), o, Processed(s, id, frames, keys, retire));
  }

  lemma ClearedSpares(h: Book, keys: seq<OrderKey>, retire: bool, o: Pubkey)
    requires Richer(h, ReleaseEach(h, keys, |keys|), o)
    ensures Richer(h, Cleared(h, keys, retire), o)
  {
    hide ReleaseEach, RemoveEach;
  }

  // --------------------------------------------------------------- placements

  lemma {:induction false} FillsPay(f: Flight, r: Request, trades: seq<Trade>, scale: nat, parts: Parts, o: Pubkey)
    requires Steady(f) && Queued(f.book, r, trades, scale, parts)
    ensures Richer(f.book, SettleAll(f, trades).book, o)
    decreases |trades|
  {
    hide Core, Backed, Bounded, Market.Payouts, Settle, SettleMints, Settleable, Matches, MakerReady, TakerReady,
      Richer, Grows;
    if trades == [] {
      StillRich(f.book, o);
    } else {
      NextMatches(f.book, r, trades, scale, parts);
      SettleKeepsBooks(f.book, f.minted, trades[0]);
      SettleKeepsQueue(f.book, r, trades, scale, parts);
      SettleGrows(f.book, trades[0]);
      GrownIsRicher(f.book, Settle(f.book, trades[0]), o);
      FillsPay(SettleNext(f, trades[0]), r, trades[1..], scale, parts, o);
      RicherStill(f.book, SettleNext(f, trades[0]).book, SettleAll(f, trades).book, o);
    }
  }

  lemma GrownIsRicher(b: Book, r: Book, o: Pubkey)
    requires Grows(b, r)
    ensures Richer(b, r, o)
  {
  }

  lemma ReservingSpares(b: Book, owner: Pubkey, t: OrderTerms, reserved: nat, notional: nat, o: Pubkey)
    requires owner in b.wallets && OrderKey(owner, t.salt) !in b.orders && t.Asset() < ASSETS
    requires t.branch < 2 && b.market.sequence[t.branch] < U64_MAX && o != owner
    ensures Richer(b, Reserve(b, owner, t, reserved, notional), o)
  {
    hide OrderTerms.Asset;
  }

  lemma OpeningSpares(s: Chain, id: Pubkey, r: Request, o: Pubkey)
    requires Fillable(s, id, r) && o != r.owner
    ensures FramesOk(s.credits, s.books[id], r.frames)
    ensures Richer(Hydrated(s, id, r), Opened(s, id, r), o)
  {
    hide Fillable, Reserve, OrderTerms.Asset, HydrateAll, ReservedFor, Ceil, Richer;
    FillableFacts(s, id, r);
    FreshKey(s, id, r);
    var b := Opened(s, id, r);
    ReservingSpares(Hydrated(s, id, r), r.owner, r.terms, ReservedFor(s.books[id].market, r).value,
                    Ceil(r.terms.quantity, r.terms.price), o);
  }

  lemma FinishingSpares(b: Book, r: Request, o: Pubkey)
    requires Entered(b, r) && o != r.owner
    ensures Richer(b, Finished(b, r), o)
  {
    hide OrderTerms.Asset;
  }

  lemma ClosingSpares(o: Flight, r: Request, trades: seq<Trade>, sequence: nat, x: Pubkey)
    requires Entered(o.book, r) && Ticks(o.book.market, r.terms.price) <= U64_MAX
    ensures Entered(SettleAll(o, trades).book, r)
    ensures Closed(o, r, trades, sequence).wallets == Finished(SettleAll(o, trades).book, r).wallets
  {
    hide OrderTerms.Asset, SettleAll, Finished, Ticks;
  }

  lemma SameWallets(b: Book, c: Book, d: Book, o: Pubkey)
    requires Richer(b, c, o) && c.wallets == d.wallets
    ensures Richer(b, d, o)
  {
  }

  /** A placement takes nothing from anyone but its owner: makers are paid from what they reserved. */
  lemma PlacementSpares(s: Chain, id: Pubkey, r: Request, o: Pubkey)
    requires Inv(s) && Fillable(s, id, r) && Ticks(s.books[id].market, r.terms.price) <= U64_MAX && o != r.owner
    ensures NotPoorer(s, Placed(s, id, r), o)
  {
    hide Inv, Fillable, Opened, SettleAll, Queued, Steady, Trades, Ticks, Finished, Framed, Entered, Closed,
      OnlyRestingBut, FramesOk, HydrateAll, FlushAll, PutBack, AllFlushed, Richer, NotPoorer, FramesIn;
    FillableFacts(s, id, r);
    StartReady(s, id, r);
    var f, trades := Start(s, id, r), Trades(s, id, r);
    OpeningSpares(s, id, r, o);
    FillsPay(f, r, trades, ScaleOf(s.books[id].market, r), PartsOf(r), o);
    var g := SettleAll(f, trades).book;
    ClosingSpares(f, r, trades, s.books[id].market.sequence[r.terms.branch], o);
    FinishingSpares(g, r, o);
    RicherStill(Hydrated(s, id, r), Opened(s, id, r), g, o);
    RicherStill(Hydrated(s, id, r), g, Finished(g, r), o);
    SameWallets(Hydrated(s, id, r), Finished(g, r), Closing(s, id, r), o);
    FramesAreIn(s.credits, s.books[id], r.frames);
    RoundTripSpares(s, id, r.frames, Closing(s, id, r), o, Placed(s, id, r));
  }

  // -------------------------------------------------------------------- steps

  lemma LedgerStepSpares(s: Chain, a: Action, o: Pubkey)
    requires Can(s, a) && !Spends(a, o)
    requires a.ListPool? || a.OpenCredit? || a.DepositPool? || a.WithdrawPool? || a.Donate? || a.Configure? || a.Pause?
             || a.InvalidateNonce? || a.Tick?
    ensures NotPoorer(s, After(s, a), o)
  {
    hide Admissible, Placed, CanCancel, CanProcess, Processed, CanSplit, CanMerge, CanRedeem, Repositioned,
      CanDeposit, CanWithdraw, CanTransfer, CanClaimFees, CanShift, Moved, Transferred, Shifted, CanCreate, CanAddBase,
      CanSetBase, CanResolve, CanInitializeClaims, Created, Listing, Activated, Resolved, ClaimsInitialized,
      LifecycleStep, Remarketed, WalletOpened;
  }

  lemma MarketStepSpares(s: Chain, a: Action, o: Pubkey)
    requires Can(s, a)
    requires a.CreateMarket? || a.AddBase? || a.SetBase? || a.Lifecycle? || a.Resolve? || a.InitializeClaims?
             || a.InitializeWallet?
    ensures NotPoorer(s, After(s, a), o)
  {
    hide Admissible, Placed, CanCancel, CanProcess, Processed, CanSplit, CanMerge, CanRedeem, Repositioned, CanDeposit,
      CanWithdraw, CanTransfer, CanClaimFees, CanShift, Moved, Transferred, Shifted, CanDepositPool, CanWithdrawPool,
      Transacted, PoolListed, CreditOpened, Donated, ListingChecks, Scale, Market.Openable, Caps.Validate, NewBook,
      Listing, Activated, Resolved, ClaimsInitialized, LifecycleStep, CanAddBase, CanInitializeClaims;
  }

  lemma MovedSpares(s: Chain, id: Pubkey, owner: Pubkey, asset: nat, amount: int, fees: int, supply: int, vault: int,
                    o: Pubkey)
    requires id in s.books && owner in s.books[id].wallets && asset < ASSETS && (owner != o || amount >= 0)
    ensures NotPoorer(s, Moved(s, id, owner, asset, amount, fees, supply, vault), o)
  {
  }

  lemma ShiftSpares(s: Chain, id: Pubkey, asset: nat, supply: int, vault: int, o: Pubkey)
    requires id in s.books && asset < ASSETS
    ensures NotPoorer(s, Shifted(s, id, asset, supply, vault), o)
  {
  }

  lemma ClaimStepSpares(s: Chain, a: Action, o: Pubkey)
    requires Can(s, a) && !Spends(a, o)
    requires a.Deposit? || a.Withdraw? || a.TransferCredit? || a.ClaimFees? || a.Shift?
    ensures NotPoorer(s, After(s, a), o)
  {
    hide Admissible, Placed, CanCancel, CanProcess, Processed, CanSplit, CanMerge, CanRedeem, Repositioned, CanCreate,
      CanAddBase, CanSetBase, CanResolve, CanInitializeClaims, Created, Listing, Activated, Resolved, ClaimsInitialized,
      CanDepositPool, CanWithdrawPool, Transacted, PoolListed, CreditOpened, Donated, External, LifecycleStep,
      Remarketed, WalletOpened, Market.Listed, NotPoorer, Moved, Shifted;
    match a
    case Deposit(id, owner, asset, amount) => MovedSpares(s, id, owner, asset, amount, 0, 0, amount, o);
    case Withdraw(id, owner, asset, amount) =>
      MovedSpares(s, id, owner, asset, -(amount as int), 0, 0, -(amount as int), o);
    case TransferCredit(id, owner, target, asset, amount) => TransferSpares(s, id, owner, target, asset, amount, o);
    case ClaimFees(id, target, asset, amount) => MovedSpares(s, id, target, asset, amount, -(amount as int), 0, 0, o);
    case Shift(id, asset, burned, donated) => ShiftSpares(s, id, asset, -(burned as int), donated, o);
  }

  lemma TransferSpares(s: Chain, id: Pubkey, owner: Pubkey, target: Pubkey, asset: nat, amount: nat, o: Pubkey)
    requires id in s.books && owner in s.books[id].wallets && target in s.books[id].wallets && asset < ASSETS
    requires owner != o
    ensures NotPoorer(s, Transferred(s, id, owner, target, asset, amount), o)
  {
    hide ClaimMove, NotPoorer;
    MovedSpares(s, id, owner, asset, -(amount as int), 0, 0, 0, o);
    var paid := Moved(s, id, owner, asset, -(amount as int), 0, 0, 0);
    MovedSpares(paid, id, target, asset, amount, 0, 0, 0, o);
    NotPoorerStill(s, paid, Transferred(s, id, owner, target, asset, amount), o);
  }

  lemma RepositionedSpares(s: Chain, id: Pubkey, owner: Pubkey, c: nat, yes: int, no: int, backing: int, o: Pubkey)
    requires Positioned(s, id, owner, c) && o != owner
    ensures NotPoorer(s, Repositioned(s, id, owner, c, yes, no, backing), o)
  {
    hide KeepsClaims, Position, Market.Ready;
    OtherPosition(s.books[id], owner, c, yes, no, backing, o);
    forall k | k in s.books && o in s.books[k].wallets
      ensures KeepsClaims(s.books[k], s.books[k], o)
    {
      ClaimsStay(s.books[k], o);
    }
  }

  lemma PositionStepSpares(s: Chain, a: Action, o: Pubkey)
    requires Can(s, a) && !Spends(a, o) && (a.Split? || a.Merge? || a.Redeem?)
    ensures NotPoorer(s, After(s, a), o)
  {
    hide Admissible, Placed, CanCancel, CanProcess, Processed, CanDeposit, CanWithdraw, CanTransfer, CanClaimFees,
      CanShift, Moved, Transferred, Shifted, CanCreate, CanAddBase, CanSetBase, CanResolve, CanInitializeClaims,
      Created, Listing, Activated, Resolved, ClaimsInitialized, CanDepositPool, CanWithdrawPool, Transacted, PoolListed,
      CreditOpened, Donated, Exposable, Redemption, Holds, LifecycleStep, Remarketed, WalletOpened, NotPoorer,
      Repositioned, Market.Ready;
    match a
    case Split(id, owner, c, amount, leg) => RepositionedSpares(s, id, owner, c, amount, amount, amount, o);
    case Merge(id, owner, c, amount) =>
      RepositionedSpares(s, id, owner, c, -(amount as int), -(amount as int), -(amount as int), o);
    case Redeem(id, owner, c, yes, no) =>
      RepositionedSpares(s, id, owner, c, -(yes as int), -(no as int),
                         -(Payment(s.books[id].market, yes, no).value as int), o);
  }

  lemma OtherPosition(b: Book, owner: Pubkey, c: nat, yes: int, no: int, backing: int, o: Pubkey)
    requires c < COLLATERALS && owner in b.wallets && o != owner
    ensures o in b.wallets ==> KeepsClaims(b, Position(b, owner, c, yes, no, backing), o)
  {
    hide Position;
    PositionBalances(b, owner, c, yes, no, backing);
  }

  lemma OrderStepSpares(s: Chain, a: Action, o: Pubkey)
    requires Inv(s) && Can(s, a) && !Spends(a, o) && (a.Place? || a.Cancel? || a.ProcessOrders?)
    ensures NotPoorer(s, After(s, a), o)
  {
    hide CanSplit, CanMerge, CanRedeem, Repositioned, CanDeposit, CanWithdraw, CanTransfer, CanClaimFees, CanShift,
      Moved, Transferred, Shifted, CanCreate, CanAddBase, CanSetBase, CanResolve, CanInitializeClaims, Created, Listing,
      Activated, Resolved, ClaimsInitialized, CanDepositPool, CanWithdrawPool, Transacted, PoolListed, CreditOpened,
      Donated, LifecycleStep, Remarketed, WalletOpened, Inv, Admissible, FramesOk, Refundable, Ticks, Retirable,
      Delisted, Releasable, NotPoorer, Placed, Processed, Fillable;
    match a
    case Place(id, request) =>
      AdmissibleIsFillable(s, id, request);
      PlacementSpares(s, id, request, o);
    case Cancel(id, actor, granted, key, frames) => BatchSpares(s, id, frames, [key], false, o);
    case ProcessOrders(id, actor, owner, granted, frames, keys, retire) => BatchSpares(s, id, frames, keys, retire, o);
  }

  /** No step takes credit or claims from an owner that did not ask for it. */
  lemma StepSpares(s: Chain, a: Action, o: Pubkey)
    requires Inv(s) && Can(s, a) && !Spends(a, o)
    ensures NotPoorer(s, After(s, a), o)
  {
    hide Inv, Can, After, NotPoorer, Spends;
    if a.Place? || a.Cancel? || a.ProcessOrders? {
      OrderStepSpares(s, a, o);
    } else if a.Split? || a.Merge? || a.Redeem? {
      PositionStepSpares(s, a, o);
    } else if a.Deposit? || a.Withdraw? || a.TransferCredit? || a.ClaimFees? || a.Shift? {
      ClaimStepSpares(s, a, o);
    } else if a.CreateMarket? || a.AddBase? || a.SetBase? || a.Lifecycle? || a.Resolve? || a.InitializeClaims?
              || a.InitializeWallet? {
      MarketStepSpares(s, a, o);
    } else {
      LedgerStepSpares(s, a, o);
    }
  }

  lemma NotPoorerStill(s: Chain, r: Chain, t: Chain, o: Pubkey)
    requires NotPoorer(s, r, o) && NotPoorer(r, t, o)
    ensures NotPoorer(s, t, o)
  {
    forall id | id in s.books && o in s.books[id].wallets
      ensures id in t.books && KeepsClaims(s.books[id], t.books[id], o)
    {
      assert KeepsClaims(s.books[id], r.books[id], o) && KeepsClaims(r.books[id], t.books[id], o);
    }
  }

  /** Over any stretch of any run an owner that spends nothing loses nothing, whatever everyone else does. */
  lemma {:induction false} OnlyOwnersSpend(states: seq<Chain>, actions: seq<Action>, i: nat, j: nat, o: Pubkey)
    requires Run(states, actions) && Initial(states[0]) && i <= j < |states|
    requires forall n | i <= n < j :: !Spends(actions[n], o)
    ensures NotPoorer(states[i], states[j], o)
  {
    hide Inv, Step, Initial, Ages, Can, After, NotPoorer, Spends;
    if i == j {
      NothingLost(states[i], o);
    } else {
      OnlyOwnersSpend(states, actions, i, j - 1, o);
      RunStep(states, actions, j - 1);
      StepSpares(states[j - 1], actions[j - 1], o);
      NotPoorerStill(states[i], states[j - 1], states[j], o);
    }
  }

  lemma NothingLost(s: Chain, o: Pubkey)
    ensures NotPoorer(s, s, o)
  {
  }

  // ------------------------------------------------------- what cancelling gives back

  /** The order is closed for good, and its whole reservation is its owner's again. */
  ghost predicate Returned(s: Chain, r: Chain, id: Pubkey, key: OrderKey)
    requires id in s.books && key in s.books[id].orders && key.owner in s.books[id].wallets
  {
    var b, o := s.books[id], s.books[id].orders[key];
    && id in r.books
    && r.books[id].orders == b.orders[key := o.(remaining := 0, reserved := 0, openNotional := 0, status := CANCELLED)]
    && o.terms.Asset() < ASSETS && key.owner in r.books[id].wallets
    && if o.terms.funding == 0 then
         && o.terms.Collateral() < COLLATERALS
         && var account := CreditKey(b.market.mints[o.terms.Collateral()], key.owner);
         account in s.credits && r.credits == s.credits[account := s.credits[account] + o.reserved]
       else
         && r.credits == s.credits
         && r.books[id].wallets[key.owner].balances
            == b.wallets[key.owner].balances[o.terms.Asset() := b.wallets[key.owner].balances[o.terms.Asset()]
              + o.reserved]
  }

  lemma ReleaseIs(b: Book, key: OrderKey)
    requires key in b.orders && key.owner in b.wallets && b.orders[key].terms.Asset() < ASSETS
    ensures var o, r := b.orders[key], Release(b, key);
            && r.orders == b.orders[key := o.(remaining := 0, reserved := 0, openNotional := 0, status := CANCELLED)]
            && r.wallets[key.owner].balances
               == b.wallets[key.owner].balances[o.terms.Asset() := b.wallets[key.owner].balances[o.terms.Asset()]
                 + o.reserved]
  {
    hide OrderTerms.Asset;
  }

  lemma OneReleased(b: Book, key: OrderKey)
    requires key in b.orders && key.owner in b.wallets && b.orders[key].terms.Asset() < ASSETS
             && b.orders[key].status == LIVE
    ensures Cleared(b, [key], false) == Release(b, key)
  {
    hide OrderTerms.Asset, Release;
    assert ReleaseEach(b, [key], 0) == b;
    assert ReleaseEach(b, [key], 1) == ReleaseNext(b, key);
  }

  lemma OneFrame(credits: map<CreditKey, int>, b: Book, f: Frame)
    requires FramesOk(credits, b, [f]) && FramesIn(b, [f])
    ensures var available := Available(credits, b, [f]);
            && HydrateAll(b, [f], available, 1)
               == Post(b, f.owner, Underlying(f.collateral), credits[KeyOf(b.market, f)])
  {
    hide Post;
    assert f in [f] && HydrateAll(b, [f], Available(credits, b, [f]), 0) == b;
  }

  lemma OneFlushed(credits: map<CreditKey, int>, m: Market, b: Book, f: Frame)
    requires FramesIn(b, [f])
    ensures f.owner in b.wallets && f.collateral < COLLATERALS
    ensures PutBack(credits, m, [f], AllFlushed(b, [f]), 1)
         == credits[KeyOf(m, f) := b.wallets[f.owner].balances[Underlying(f.collateral)]]
    ensures FlushAll(b, [f], 1).orders == b.orders && FlushAll(b, [f], 1).wallets.Keys == b.wallets.Keys
  {
    hide Post;
    assert f in [f] && FlushAll(b, [f], 0) == b;
    assert PutBack(credits, m, [f], AllFlushed(b, [f]), 0) == credits;
  }

  lemma CancelReturns(s: Chain, id: Pubkey, actor: Pubkey, granted: set<OrderKey>, key: OrderKey, frames: seq<Frame>)
    requires Inv(s) && Can(s, Cancel(id, actor, granted, key, frames))
    ensures id in s.books && key in s.books[id].orders && key.owner in s.books[id].wallets
    ensures Returned(s, After(s, Cancel(id, actor, granted, key, frames)), id, key)
  {
    hide Inv, FramesOk, Delisted, Releasable, Processed, Returned, BookOk, Core, Drained;
    var b := s.books[id];
    InvBook(s, id);
    BookDrained(b);
    OpenOrderIs(b, key);
    if b.orders[key].terms.funding == 0 {
      PoolFundedReturns(s, id, key);
    } else {
      ClaimFundedReturns(s, id, key);
    }
  }

  lemma OpenOrderIs(b: Book, key: OrderKey)
    requires Core(b) && key in b.orders
    ensures var t := b.orders[key].terms;
            && t.funding < 2 && t.Collateral() < COLLATERALS && t.Asset() < ASSETS
            && t.Asset() == if t.funding == 0 then Underlying(t.Collateral()) else Claim(t.Collateral(), t.branch)
  {
    hide Balanced, NonNegative, Ceil, Caps.ValidateOrder, BoundNonce;
    assert OrderOk(b.market, key, b.orders[key]);
  }

  lemma PoolFundedReturns(s: Chain, id: Pubkey, key: OrderKey)
    requires id in s.books && key in s.books[id].orders && key.owner in s.books[id].wallets && Drained(s.books[id])
    requires var o := s.books[id].orders[key];
             && o.status == LIVE && o.terms.funding == 0 && o.terms.Asset() < ASSETS
             && o.terms.Collateral() < COLLATERALS
             && o.terms.Asset() == Underlying(o.terms.Collateral())
             && FramesOk(s.credits, s.books[id], [Frame(key.owner, o.terms.Collateral())])
    ensures var o := s.books[id].orders[key];
            Returned(s, Processed(s, id, [Frame(key.owner, o.terms.Collateral())], [key], false), id, key)
  {
    hide Cleared, Release, HydrateAll, FlushAll, PutBack, AllFlushed, OrderTerms.Asset, OrderTerms.Collateral, Post;
    var b, o := s.books[id], s.books[id].orders[key];
    var f := Frame(key.owner, o.terms.Collateral());
    assert f in [f];
    FramesAreIn(s.credits, b, [f]);
    OneFrame(s.credits, b, f);
    var h := Post(b, f.owner, Underlying(f.collateral), s.credits[KeyOf(b.market, f)]);
    PostMovesBalance(b, f.owner, Underlying(f.collateral), s.credits[KeyOf(b.market, f)], f.owner,
                     Underlying(f.collateral));
    ReleaseIs(h, key);
    OneReleased(h, key);
    OneFlushed(s.credits, b.market, Release(h, key), f);
  }

  lemma ClaimFundedReturns(s: Chain, id: Pubkey, key: OrderKey)
    requires id in s.books && key in s.books[id].orders && key.owner in s.books[id].wallets
             && FramesOk(s.credits, s.books[id], [])
    requires var o := s.books[id].orders[key];
             && o.status == LIVE && o.terms.funding != 0 && o.terms.Asset() < ASSETS
    ensures Returned(s, Processed(s, id, [], [key], false), id, key)
  {
    hide Cleared, Release, OrderTerms.Asset, OrderTerms.Collateral, Post;
    var b := s.books[id];
    assert HydrateAll(b, [], Available(s.credits, b, []), 0) == b;
    ReleaseIs(b, key);
    OneReleased(b, key);
    assert FlushAll(Release(b, key), [], 0) == Release(b, key);
    assert PutBack(s.credits, b.market, [], AllFlushed(Release(b, key), []), 0) == s.credits;
  }
}
