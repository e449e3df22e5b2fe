/** Every instruction and every external step of a deployment, and the invariant of all runs. */
module Protocol {
  import opened Exact
  import opened Rules
  import opened Sums
  import opened Conversion
  import opened State
  import opened Settlement
  import opened InFlight
  import opened Matching
  import opened Chain
  import opened Exchange
  import opened Placing
  import opened Completion
  import opened Positions
  import opened Releases
  import opened Custody
  import opened Pools
  import opened Governance

  datatype Action =
    | ListPool(mint: Pubkey)
    | OpenCredit(mint: Pubkey, owner: Pubkey)
    | DepositPool(mint: Pubkey, owner: Pubkey, amount: u64, minimum: u64, received: u64)
    | WithdrawPool(mint: Pubkey, owner: Pubkey, amount: u64, minimum: u64, received: u64)
    | CreateMarket(id: Pubkey, terms: Terms)
    | AddBase(id: Pubkey, issuer: Issuer)
    | SetBase(id: Pubkey, collateral: nat, active: bool)
    | Lifecycle(id: Pubkey, action: nat, committed: bool)
    | Resolve(id: Pubkey, yes: nat, no: nat)
    | InitializeClaims(id: Pubkey, collateral: nat)
    | InitializeWallet(id: Pubkey, owner: Pubkey)
    | Configure(makerBps: u16, takerBps: u16)
    | Pause(paused: bool)
    | InvalidateNonce(owner: Pubkey, minimum: u64)
    | Deposit(id: Pubkey, owner: Pubkey, asset: nat, amount: u64)
    | Withdraw(id: Pubkey, owner: Pubkey, asset: nat, amount: u64)
    | TransferCredit(id: Pubkey, owner: Pubkey, target: Pubkey, asset: nat, amount: u64)
    | ClaimFees(id: Pubkey, target: Pubkey, asset: nat, amount: u64)
    | Split(id: Pubkey, owner: Pubkey, collateral: nat, amount: u64, leg: LegLive)
    | Merge(id: Pubkey, owner: Pubkey, collateral: nat, amount: u64)
    | Redeem(id: Pubkey, owner: Pubkey, collateral: nat, yesAmount: u64, noAmount: u64)
    | Place(id: Pubkey, request: Request)
    | Cancel(id: Pubkey, actor: Pubkey, granted: set<OrderKey>, key: OrderKey, frames: seq<Frame>)
    | ProcessOrders(id: Pubkey, actor: Pubkey, owner: Pubkey, granted: set<OrderKey>, frames: seq<Frame>,
                    keys: seq<OrderKey>, retire: bool)
    // What happens around the program: time passes, tokens are sent to vaults, holders burn claims.
    | Tick(now: int)
    | Donate(mint: Pubkey, donation: nat)
    | Shift(id: Pubkey, asset: nat, burned: nat, donated: nat)

  // -------------------------------------------------------- cancelling, retiring

  /** An ask on a delisted leg can never fill again: anyone may release it. */
  predicate Delisted(m: Market, t: OrderTerms) {
    t.side == 1 && !m.Active(t.Collateral())
  }

  predicate CanCancel(s: Chain, id: Pubkey, actor: Pubkey, granted: set<OrderKey>, key: OrderKey, frames: seq<Frame>) {
    && id in s.books && key in s.books[id].orders && key.owner in s.books[id].wallets && key.owner in s.traders
    && var m, o := s.books[id].market, s.books[id].orders[key];
    && o.status == LIVE
    && (actor == key.owner || key in granted || Delisted(m, o.terms)
        || Releasable(m.state, s.now, o.terms.expiry, o.terms.nonce, s.traders[key.owner]))
    && frames == (if o.terms.funding == 0 then [Frame(key.owner, o.terms.Collateral())] else [])
    && FramesOk(s.credits, s.books[id], frames)
  }

  predicate PermanentlyClosed(m: Market, now: int) {
    now >= m.terms.tradingCutoff || m.state == FROZEN || m.state == AWAITING || m.state == REDEEMABLE
      || m.state == ARCHIVED
  }

  predicate Retirable(m: Market, now: int, t: OrderTerms, minimum: u64) {
    PermanentlyClosed(m, now) || (BoundNonce(t.salt) == Some(t.nonce) && t.nonce < minimum)
  }

  ghost predicate CanProcess(s: Chain, id: Pubkey, actor: Pubkey, owner: Pubkey, granted: set<OrderKey>,
                             frames: seq<Frame>,
                             keys: seq<OrderKey>, retire: bool) {
    && id in s.books && owner in s.books[id].wallets && owner in s.traders
    && (actor != owner ==> !retire && forall k | k in keys :: k in granted)
    && 0 < |keys| <= MAX_MAKERS && Distinct(keys)
    && |frames| <= COLLATERALS && FramesOk(s.credits, s.books[id], frames)
    && (forall f | f in frames :: f.owner == owner)
    && (forall k | k in keys :: k in s.books[id].orders && k.owner == owner)
    && (retire ==> forall k | k in keys ::
          Retirable(s.books[id].market, s.now, s.books[id].orders[k].terms, s.traders[owner]))
    && Refundable(s.books[id], frames, keys)
  }

  // -------------------------------------------------------------------- steps

  /** Wallet accounts: a new wallet is empty; the owner's trader record is never reset. */
  function WalletOpened(s: Chain, id: Pubkey, owner: Pubkey): Chain
    requires id in s.books
  {
    var b := s.books[id];
    s.(books := s.books[id := b.(wallets := b.wallets[owner := Wallet(NO_AMOUNTS, 0)])],
       traders := s.traders[owner := if owner in s.traders then s.traders[owner] else 0])
  }

  /** Whether the action succeeds in the state. */
  ghost predicate Can(s: Chain, a: Action) {
    match a
    case ListPool(mint) => mint !in s.pools
    case OpenCredit(mint, owner) => mint in s.pools && owner != NOBODY
    case DepositPool(mint, owner, amount, minimum, received) => CanDepositPool(s, mint, owner, amount, minimum,
      received)
    case WithdrawPool(mint, owner, amount, minimum, received) => CanWithdrawPool(s, mint, owner, amount, minimum,
      received)
    case CreateMarket(id, terms) => CanCreate(s, id, terms)
    case AddBase(id, issuer) => CanAddBase(s, id, issuer)
    case SetBase(id, c, active) => CanSetBase(s, id, c, active)
    case Lifecycle(id, action, committed) =>
      id in s.books && LifecycleStep(s.books[id].market, s.now, action, committed).Some?
    case Resolve(id, yes, no) => CanResolve(s, id, yes, no)
    case InitializeClaims(id, c) => CanInitializeClaims(s, id, c)
    case InitializeWallet(id, owner) => id in s.books && owner != NOBODY && owner !in s.books[id].wallets
    case Configure(makerBps, takerBps) => makerBps <= MAX_FEE_BPS && takerBps <= MAX_FEE_BPS
    case Pause(paused) => paused != s.config.paused
    case InvalidateNonce(owner, minimum) => owner in s.traders && minimum > s.traders[owner]
    case Deposit(id, owner, asset, amount) => CanDeposit(s, id, owner, asset, amount)
    case Withdraw(id, owner, asset, amount) => CanWithdraw(s, id, owner, asset, amount)
    case TransferCredit(id, owner, target, asset, amount) => CanTransfer(s, id, owner, target, asset, amount)
    case ClaimFees(id, target, asset, amount) => CanClaimFees(s, id, target, asset, amount)
    case Split(id, owner, c, amount, leg) => CanSplit(s, id, owner, c, amount, leg)
    case Merge(id, owner, c, amount) => CanMerge(s, id, owner, c, amount)
    case Redeem(id, owner, c, yes, no) => CanRedeem(s, id, owner, c, yes, no)
    case Place(id, request) => Admissible(s, id, request)
    case Cancel(id, actor, granted, key, frames) => CanCancel(s, id, actor, granted, key, frames)
    case ProcessOrders(id, actor, owner, granted, frames, keys, retire) =>
      CanProcess(s, id, actor, owner, granted, frames, keys, retire)
    case Tick(now) => now >= s.now
    case Donate(mint, amount) => mint in s.pools && s.pools[mint].vault + amount <= U64_MAX
    case Shift(id, asset, burned, donated) => CanShift(s, id, asset, -(burned as int), donated)
  }

  /** The state it leaves. */
  ghost function After(s: Chain, a: Action): Chain
    requires Can(s, a)
  {
    hide Fillable, Rests, CapsHold, Start, Exposable, ListingChecks, Redemption, FramesOk, Refundable, Market.Listed,
      Market.Ready, Releasable, Retirable, Scale, Ticks, RaceFree, External, Delisted, Market.Openable;
    match a
    case ListPool(mint) => PoolListed(s, mint)
    case OpenCredit(mint, owner) => CreditOpened(s, CreditKey(mint, owner))
    case DepositPool(mint, owner, amount, minimum, received) => Transacted(s, mint, owner, received, received)
    case WithdrawPool(mint, owner, amount, minimum, received) => Transacted(s, mint, owner, -(amount as int),
      -(amount as int))
    case CreateMarket(id, terms) => Created(s, id, terms)
    case AddBase(id, issuer) => Remarketed(s, id, Listing(s.books[id].market, issuer))
    case SetBase(id, c, active) => Remarketed(s, id, Activated(s.books[id].market, c, active))
    case Lifecycle(id, action, committed) =>
      var m := s.books[id].market;
      Remarketed(s, id, m.(state := LifecycleStep(m, s.now, action, committed).value))
    case Resolve(id, yes, no) => Remarketed(s, id, Resolved(s.books[id].market, yes, no))
    case InitializeClaims(id, c) => Remarketed(s, id, ClaimsInitialized(s.books[id].market, c))
    case InitializeWallet(id, owner) => WalletOpened(s, id, owner)
    case Configure(makerBps, takerBps) => s.(config := s.config.(makerBps := makerBps, takerBps := takerBps))
    case Pause(paused) => s.(config := s.config.(paused := paused))
    case InvalidateNonce(owner, minimum) => s.(traders := s.traders[owner := minimum])
    case Deposit(id, owner, asset, amount) => Moved(s, id, owner, asset, amount, 0, 0, amount)
    case Withdraw(id, owner, asset, amount) => Moved(s, id, owner, asset, -(amount as int), 0, 0, -(amount as int))
    case TransferCredit(id, owner, target, asset, amount) => Transferred(s, id, owner, target, asset, amount)
    case ClaimFees(id, target, asset, amount) => Moved(s, id, target, asset, amount, -(amount as int), 0, 0)
    case Split(id, owner, c, amount, leg) => Repositioned(s, id, owner, c, amount, amount, amount)
    case Merge(id, owner, c, amount) => Repositioned(s, id, owner, c, -(amount as int), -(amount as int),
                                                     -(amount as int))
    case Redeem(id, owner, c, yes, no) =>
      Repositioned(s, id, owner, c, -(yes as int), -(no as int), -(Payment(s.books[id].market, yes, no).value as int))
    case Place(id, request) => Placed(s, id, request)
    case Cancel(id, actor, granted, key, frames) => Processed(s, id, frames, [key], false)
    case ProcessOrders(id, actor, owner, granted, frames, keys, retire) => Processed(s, id, frames, keys, retire)
    case Tick(now) => s.(now := now)
    case Donate(mint, amount) => Donated(s, mint, amount)
    case Shift(id, asset, burned, donated) => Shifted(s, id, asset, -(burned as int), donated)
  }

  /** What a placement's success means, and the state it leaves. */
  lemma PlaceIs(s: Chain, a: Action)
    requires a.Place? && Can(s, a)
    ensures a.id in s.books && Admissible(s, a.id, a.request)
    ensures Ticks(s.books[a.id].market, a.request.terms.price) <= U64_MAX
    ensures After(s, a) == Placed(s, a.id, a.request)
  {
    hide CanCancel, CanProcess, Processed, CanSplit, CanMerge, CanRedeem, Repositioned, CanDeposit, CanWithdraw,
      CanTransfer, CanClaimFees, CanShift, Moved, Transferred, Shifted, CanCreate, CanAddBase, CanSetBase, CanResolve,
      CanInitializeClaims, Created, Listing, Activated, Resolved, ClaimsInitialized, CanDepositPool, CanWithdrawPool,
      Transacted, PoolListed, CreditOpened, Donated, LifecycleStep, Remarketed, WalletOpened, Placed, Admissible,
      Fillable;
    AdmissibleIsFillable(s, a.id, a.request);
    FillableFacts(s, a.id, a.request);
  }

  ghost predicate Step(s: Chain, a: Action, after: Chain) {
    Can(s, a) && after == After(s, a)
  }

  /** A deployment starts with its configuration alone. */
  ghost predicate Initial(s: Chain) {
    && s.pools == map[] && s.credits == map[] && s.traders == map[] && s.books == map[]
    && s.config.makerBps <= MAX_FEE_BPS && s.config.takerBps <= MAX_FEE_BPS
  }

  ghost predicate Run(states: seq<Chain>, actions: seq<Action>) {
    && |states| == |actions| + 1
    && forall i | 0 <= i < |actions| :: Step(states[i], actions[i], states[i + 1])
  }

  // ------------------------------------------------------ the invariant of runs

  lemma WalletKeepsBook(b: Book, owner: Pubkey)
    requires BookOk(b) && owner !in b.wallets
    ensures var r := b.(wallets := b.wallets[owner := Wallet(NO_AMOUNTS, 0)]); BookOk(r) && Owes(b, r, 0, 0)
  {
    hide OrderOk, TermsOk, LegsOk, LifecycleOk, Backed, OnlyResting, UnlistedEmpty;
    var r := b.(wallets := b.wallets[owner := Wallet(NO_AMOUNTS, 0)]);
    WalletKeepsBalance(b, owner);
    hide Balanced;
    assert Backed(r, NO_AMOUNTS) && OnlyResting(r) && UnlistedEmpty(r) by { WalletIsNoClaim(b, r); }
  }

  lemma WalletIsNoClaim(b: Book, r: Book)
    requires r == b.(wallets := r.wallets)
    ensures Backed(b, NO_AMOUNTS) ==> Backed(r, NO_AMOUNTS)
    ensures OnlyResting(b) ==> OnlyResting(r)
    ensures UnlistedEmpty(b) ==> UnlistedEmpty(r)
  {
    if Backed(b, NO_AMOUNTS) {
      StillBacked(b, r, NO_AMOUNTS);
    }
  }

  lemma WalletKeepsBalance(b: Book, owner: Pubkey)
    requires Balanced(b) && owner !in b.wallets
    ensures Balanced(b.(wallets := b.wallets[owner := Wallet(NO_AMOUNTS, 0)]))
  {
    var w := Wallet(NO_AMOUNTS, 0);
    forall a | 0 <= a < ASSETS
      ensures b.ledgers.credits[a] == SumBy(b.wallets[owner := w], BalanceOf(a))
    {
      SumUpdate(b.wallets, owner, w, BalanceOf(a));
    }
    SumUpdate(b.wallets, owner, w, WalletExposure());
    forall k | k in b.orders
      ensures ExposureOf(owner)(k, b.orders[k]) == 0
    {
    }
    SumZero(b.orders, ExposureOf(owner));
  }

  lemma WalletKeepsInv(s: Chain, id: Pubkey, owner: Pubkey)
    requires Inv(s) && id in s.books && owner !in s.books[id].wallets
    ensures Inv(WalletOpened(s, id, owner))
  {
    hide BookOk, Demand, Owes;
    var b, after := s.books[id], WalletOpened(s, id, owner);
    assert BookOk(b) && Anchored(s, b);
    WalletKeepsBook(b, owner);
    forall p | p in after.pools
      ensures after.pools[p].liability == SumBy(after.credits, CreditIn(p)) + SumBy(after.books, DemandOf(p))
    {
      SumUpdate(s.books, id, after.books[id], DemandOf(p));
      WalletDemand(b, after.books[id], p);
    }
    forall k | k in after.books
      ensures BookOk(after.books[k]) && Anchored(after, after.books[k])
    {
      if k != id {
        assert BookOk(s.books[k]) && Anchored(s, s.books[k]);
      }
    }
  }

  lemma WalletDemand(b: Book, r: Book, mint: Pubkey)
    requires r == b.(wallets := r.wallets)
    ensures Demand(r, mint) == Demand(b, mint)
  {
  }

  lemma CancelRefunds(s: Chain, id: Pubkey, actor: Pubkey, granted: set<OrderKey>, key: OrderKey, frames: seq<Frame>)
    requires CanCancel(s, id, actor, granted, key, frames)
    ensures Refundable(s.books[id], frames, [key])
  {
    hide Delisted, Releasable, FramesOk;
  }

  lemma OwnStepsKeepInv(s: Chain, a: Action)
    requires Inv(s) && Can(s, a)
    requires a.Configure? || a.Pause? || a.InvalidateNonce? || a.Tick?
    ensures Inv(After(s, a))
  {
    hide Admissible, Placed, CanCancel, CanProcess, Processed, CanSplit, CanMerge, CanRedeem, Repositioned, CanDeposit,
      CanWithdraw, CanTransfer, CanClaimFees, CanShift, Moved, Transferred, Shifted, CanCreate, CanAddBase, CanSetBase,
      CanResolve, CanInitializeClaims, Created, Listing, Activated, Resolved, ClaimsInitialized, CanDepositPool,
      CanWithdrawPool, Transacted, PoolListed, CreditOpened, Donated, LifecycleStep, Remarketed, WalletOpened, BookOk,
      Demand, BooksOk;
    BooksKeep(s, After(s, a));
  }

  lemma PoolStepsKeepInv(s: Chain, a: Action)
    requires Inv(s) && Can(s, a)
    requires a.ListPool? || a.OpenCredit? || a.DepositPool? || a.WithdrawPool? || a.Donate?
    ensures Inv(After(s, a))
  {
    hide Admissible, Placed, CanCancel, CanProcess, Processed, CanSplit, CanMerge, CanRedeem, Repositioned, CanDeposit,
      CanWithdraw, CanTransfer, CanClaimFees, CanShift, Moved, Transferred, Shifted, CanCreate, CanAddBase, CanSetBase,
      CanResolve, CanInitializeClaims, Created, Listing, Activated, Resolved, ClaimsInitialized, LifecycleStep,
      Remarketed, WalletOpened, Inv, CanDepositPool, CanWithdrawPool, Transacted, PoolListed, CreditOpened, Donated;
    match a
    case ListPool(mint) => ListPoolKeepsInv(s, mint);
    case OpenCredit(mint, owner) => OpenCreditKeepsInv(s, CreditKey(mint, owner));
    case DepositPool(mint, owner, amount, minimum, received) => DepositPoolKeepsInv(s, mint, owner, amount, minimum,
      received);
    case WithdrawPool(mint, owner, amount, minimum, received) => WithdrawPoolKeepsInv(s, mint, owner, amount, minimum,
      received);
    case Donate(mint, donation) => DonationKeepsInv(s, mint, donation);
  }

  lemma MarketStepsKeepInv(s: Chain, a: Action)
    requires Inv(s) && Can(s, a)
    requires a.CreateMarket? || a.AddBase? || a.SetBase? || a.Lifecycle? || a.Resolve? || a.InitializeClaims?
             || a.InitializeWallet?
    ensures Inv(After(s, a))
  {
    hide Admissible, Placed, CanCancel, CanProcess, Processed,
      CanSplit, CanMerge, CanRedeem, Repositioned,
      CanDeposit, CanWithdraw, CanTransfer, CanClaimFees, CanShift, Moved, Transferred, Shifted,
      CanDepositPool, CanWithdrawPool, Transacted, PoolListed, CreditOpened, Donated,
      Inv, Created, Remarketed, WalletOpened, Listing, Activated, Resolved, ClaimsInitialized, CanCreate, CanAddBase,
      LifecycleStep, CanInitializeClaims;
    match a
    case CreateMarket(id, terms) => CreateKeepsInv(s, id, terms);
    case AddBase(id, issuer) => AddBaseKeepsInv(s, id, issuer);
    case SetBase(id, c, active) => SetBaseKeepsInv(s, id, c, active);
    case Lifecycle(id, action, committed) => LifecycleKeepsInv(s, id, action, committed);
    case Resolve(id, yes, no) => ResolveKeepsInv(s, id, yes, no);
    case InitializeClaims(id, c) => InitializeClaimsKeepsInv(s, id, c);
    case InitializeWallet(id, owner) => WalletKeepsInv(s, id, owner);
  }

  lemma ClaimStepsKeepInv(s: Chain, a: Action)
    requires Inv(s) && Can(s, a)
    requires a.Deposit? || a.Withdraw? || a.TransferCredit? || a.ClaimFees? || a.Shift?
    ensures Inv(After(s, a))
  {
    hide Admissible, Placed, CanCancel, CanProcess, Processed, CanSplit, CanMerge, CanRedeem, Repositioned, CanCreate,
      CanAddBase, CanSetBase, CanResolve, CanInitializeClaims, Created, Listing, Activated, Resolved, ClaimsInitialized,
      CanDepositPool, CanWithdrawPool, Transacted, PoolListed, CreditOpened, Donated, LifecycleStep, Remarketed,
      WalletOpened, Inv, Moved, Transferred, Shifted, ClaimIndex, External;
    match a
    case Deposit(id, owner, asset, amount) => DepositKeepsInv(s, id, owner, asset, amount);
    case Withdraw(id, owner, asset, amount) => WithdrawKeepsInv(s, id, owner, asset, amount);
    case TransferCredit(id, owner, target, asset, amount) => TransferKeepsInv(s, id, owner, target, asset, amount);
    case ClaimFees(id, target, asset, amount) => ClaimFeesKeepsInv(s, id, target, asset, amount);
    case Shift(id, asset, burned, donated) => ShiftKeepsInv(s, id, asset, -(burned as int), donated);
  }

  lemma PositionStepsKeepInv(s: Chain, a: Action)
    requires Inv(s) && Can(s, a) && (a.Split? || a.Merge? || a.Redeem?)
    ensures Inv(After(s, a))
  {
    hide Admissible, Placed, CanCancel, CanProcess, Processed, CanDeposit, CanWithdraw, CanTransfer, CanClaimFees,
      CanShift, Moved, Transferred, Shifted, CanCreate, CanAddBase, CanSetBase, CanResolve, CanInitializeClaims,
      Created, Listing, Activated, Resolved, ClaimsInitialized, CanDepositPool, CanWithdrawPool, Transacted, PoolListed,
      CreditOpened, Donated, LifecycleStep, Remarketed, WalletOpened, Inv, Repositioned, Exposable, Holds, Payment,
      Positioned;
    match a
    case Split(id, owner, c, amount, leg) => SplitKeepsInv(s, id, owner, c, amount, leg);
    case Merge(id, owner, c, amount) => MergeKeepsInv(s, id, owner, c, amount);
    case Redeem(id, owner, c, yes, no) => RedeemKeepsInv(s, id, owner, c, yes, no);
  }

  lemma OrderStepsKeepInv(s: Chain, a: Action)
    requires Inv(s) && Can(s, a)
    requires a.Place? || a.Cancel? || a.ProcessOrders?
    ensures Inv(After(s, a))
  {
    hide CanSplit, CanMerge, CanRedeem, Repositioned, CanDeposit, CanWithdraw, CanTransfer, CanClaimFees, CanShift,
      Moved, Transferred, Shifted, CanCreate, CanAddBase, CanSetBase, CanResolve, CanInitializeClaims, Created, Listing,
      Activated, Resolved, ClaimsInitialized, CanDepositPool, CanWithdrawPool, Transacted, PoolListed, CreditOpened,
      Donated, LifecycleStep, Remarketed, WalletOpened, Inv, Placed, Processed, Admissible, FramesOk, Refundable,
      Retirable, Delisted, Releasable;
    match a
    case Place(id, request) => PlaceKeepsInv(s, id, request);
    case Cancel(id, actor, granted, key, frames) =>
      CancelRefunds(s, id, actor, granted, key, frames);
      ProcessKeepsInv(s, id, frames, [key], false);
    case ProcessOrders(id, actor, owner, granted, frames, keys, retire) => ProcessKeepsInv(s, id, frames, keys, retire);
  }

  /** Every successful instruction, and everything that happens around the program, keeps the
      global invariant. */
  lemma StepKeepsInv(s: Chain, a: Action)
    requires Inv(s) && Can(s, a)
    ensures Inv(After(s, a))
  {
    hide Inv, Can, After;
    match a
    case ListPool(_) => PoolStepsKeepInv(s, a);
    case OpenCredit(_, _) => PoolStepsKeepInv(s, a);
    case DepositPool(_, _, _, _, _) => PoolStepsKeepInv(s, a);
    case WithdrawPool(_, _, _, _, _) => PoolStepsKeepInv(s, a);
    case Donate(_, _) => PoolStepsKeepInv(s, a);
    case CreateMarket(_, _) => MarketStepsKeepInv(s, a);
    case AddBase(_, _) => MarketStepsKeepInv(s, a);
    case SetBase(_, _, _) => MarketStepsKeepInv(s, a);
    case Lifecycle(_, _, _) => MarketStepsKeepInv(s, a);
    case Resolve(_, _, _) => MarketStepsKeepInv(s, a);
    case InitializeClaims(_, _) => MarketStepsKeepInv(s, a);
    case InitializeWallet(_, _) => MarketStepsKeepInv(s, a);
    case Configure(_, _) => OwnStepsKeepInv(s, a);
    case Pause(_) => OwnStepsKeepInv(s, a);
    case InvalidateNonce(_, _) => OwnStepsKeepInv(s, a);
    case Tick(_) => OwnStepsKeepInv(s, a);
    case Place(_, _) => OrderStepsKeepInv(s, a);
    case Cancel(_, _, _, _, _) => OrderStepsKeepInv(s, a);
    case ProcessOrders(_, _, _, _, _, _, _) => OrderStepsKeepInv(s, a);
    case Split(_, _, _, _, _) => PositionStepsKeepInv(s, a);
    case Merge(_, _, _, _) => PositionStepsKeepInv(s, a);
    case Redeem(_, _, _, _, _) => PositionStepsKeepInv(s, a);
    case _ => ClaimStepsKeepInv(s, a);
  }

  lemma InitialInv(s: Chain)
    requires Initial(s)
    ensures Inv(s)
  {
  }

  /** The invariant holds in every state of every run. */
  lemma {:induction false} RunKeepsInv(states: seq<Chain>, actions: seq<Action>, i: nat)
    requires Run(states, actions) && Initial(states[0]) && i < |states|
    ensures Inv(states[i])
  {
    hide Inv, Step;
    if i == 0 {
      InitialInv(states[0]);
    } else {
      RunKeepsInv(states, actions, i - 1);
      assert Step(states[i - 1], actions[i - 1], states[i - 1 + 1]);
      StepIs(states[i - 1], actions[i - 1], states[i]);
    }
  }

  lemma StepIs(s: Chain, a: Action, after: Chain)
    requires Inv(s) && Step(s, a, after)
    ensures Inv(after)
  {
    hide Inv, Can, After;
    StepKeepsInv(s, a);
  }
}
