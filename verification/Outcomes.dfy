/** The life of a market and what its outcome is worth: states only advance, an announced outcome is
    final, and redemption pays the winning claims. */
module Outcomes {
  import opened Exact
  import opened Rules
  import opened Sums
  import opened Conversion
  import opened State
  import opened Settlement
  import opened InFlight
  import opened Matching
  import opened Chain
  import opened Exchange
  import opened Placing
  import opened Completion
  import opened Positions
  import opened Releases
  import opened Custody
  import opened Pools
  import opened Governance
  import opened Protocol
  import opened Aging
  import opened Races

  // ------------------------------------------------------------- states advance

  /** Where a market is in its life. */
  function Stage(state: nat): nat {
    if state == SCHEDULED then 0 else if state == OPEN then 1 else if state == FROZEN then 2
    else if state == AWAITING then 3 else if state == REDEEMABLE then 4 else 5
  }

  /** A later state of the same market: no stage is left behind, a known outcome stays. */
  predicate Advances(m: Market, n: Market) {
    && Stage(m.state) <= Stage(n.state) && n.terms == m.terms
    && (m.state == REDEEMABLE || m.state == ARCHIVED ==>
          n.payouts == m.payouts && (n.state == REDEEMABLE || n.state == ARCHIVED))
  }

  lemma MovedKeepsMarkets(s: Chain, at: Pubkey, owner: Pubkey, asset: nat, amount: int, fees: int, supply: int,
                          vault: int, id: Pubkey)
    requires at in s.books && owner in s.books[at].wallets && asset < ASSETS && id in s.books
    ensures var r := Moved(s, at, owner, asset, amount, fees, supply, vault);
            && id in r.books && r.books[id].market == s.books[id].market
            && at in r.books && r.books[at].wallets.Keys == s.books[at].wallets.Keys
  {
  }

  lemma ClaimStepsKeepMarkets(s: Chain, a: Action, id: Pubkey)
    requires Can(s, a) && id in s.books
    requires a.Deposit? || a.Withdraw? || a.TransferCredit? || a.ClaimFees? || a.Shift?
    ensures id in After(s, a).books && After(s, a).books[id].market == s.books[id].market
  {
    hide Admissible, Placed, CanCancel, CanProcess, Processed, CanSplit, CanMerge, CanRedeem, Repositioned, CanCreate,
      CanAddBase, CanSetBase, CanResolve, CanInitializeClaims, Created, Listing, Activated, Resolved, ClaimsInitialized,
      CanDepositPool, CanWithdrawPool, Transacted, PoolListed, CreditOpened, Donated, Moved, Vaulted, External,
      Market.Listed, LifecycleStep, Remarketed, WalletOpened;
    match a
    case Deposit(at, owner, asset, amount) => MovedKeepsMarkets(s, at, owner, asset, amount, 0, 0, amount, id);
    case Withdraw(at, owner, asset, amount) =>
      MovedKeepsMarkets(s, at, owner, asset, -(amount as int), 0, 0, -(amount as int), id);
    case TransferCredit(at, owner, target, asset, amount) =>
      MovedKeepsMarkets(s, at, owner, asset, -(amount as int), 0, 0, 0, id);
      MovedKeepsMarkets(Moved(s, at, owner, asset, -(amount as int), 0, 0, 0), at, target, asset, amount, 0, 0, 0, id);
    case ClaimFees(at, target, asset, amount) =>
      MovedKeepsMarkets(s, at, target, asset, amount, -(amount as int), 0, 0, id);
    case Shift(_, _, _, _) =>
  }

  lemma PositionStepsKeepMarkets(s: Chain, a: Action, id: Pubkey)
    requires Can(s, a) && id in s.books && (a.Split? || a.Merge? || a.Redeem?)
    ensures id in After(s, a).books && After(s, a).books[id].market == s.books[id].market
  {
    hide Admissible, Placed, CanCancel, CanProcess, Processed, CanDeposit, CanWithdraw, CanTransfer, CanClaimFees,
      CanShift, Moved, Transferred, Shifted, CanCreate, CanAddBase, CanSetBase, CanResolve, CanInitializeClaims,
      Created, Listing, Activated, Resolved, ClaimsInitialized, CanDepositPool, CanWithdrawPool, Transacted, PoolListed,
      CreditOpened, Donated, Position, Exposable, Redemption, Holds, Market.Ready, LifecycleStep, Remarketed,
      WalletOpened;
  }

  lemma MarketStepsAdvance(s: Chain, a: Action, id: Pubkey)
    requires Can(s, a) && id in s.books
    requires a.CreateMarket? || a.AddBase? || a.SetBase? || a.Lifecycle? || a.Resolve? || a.InitializeClaims?
             || a.InitializeWallet?
    ensures id in After(s, a).books && Advances(s.books[id].market, After(s, a).books[id].market)
  {
    hide Admissible, Placed, CanCancel, CanProcess, Processed, CanSplit, CanMerge, CanRedeem, Repositioned, CanDeposit,
      CanWithdraw, CanTransfer, CanClaimFees, CanShift, Moved, Transferred, Shifted, CanDepositPool, CanWithdrawPool,
      Transacted, PoolListed, CreditOpened, Donated, ListingChecks, Scale, Market.Openable, Caps.Validate, NewBook;
  }

  lemma OrderStepsKeepStage(s: Chain, a: Action, id: Pubkey)
    requires Inv(s) && Can(s, a) && id in s.books && (a.Place? || a.Cancel? || a.ProcessOrders?)
    ensures id in After(s, a).books && Advances(s.books[id].market, After(s, a).books[id].market)
  {
    hide Inv, Can, After, BookAges, RecordOf, WholeTicks, Ticks;
    OrderStepAges(s, a);
    if a.Place? && a.id == id {
      PlaceStep(s, a);
    }
  }

  /** Every step of a deployment only advances a market. */
  lemma StepAdvances(s: Chain, a: Action, id: Pubkey)
    requires Inv(s) && Can(s, a) && id in s.books
    ensures id in After(s, a).books && Advances(s.books[id].market, After(s, a).books[id].market)
  {
    hide Inv, Can, After;
    if a.Place? || a.Cancel? || a.ProcessOrders? {
      OrderStepsKeepStage(s, a, id);
    } else if a.Split? || a.Merge? || a.Redeem? {
      PositionStepsKeepMarkets(s, a, id);
    } else if a.Deposit? || a.Withdraw? || a.TransferCredit? || a.ClaimFees? || a.Shift? {
      ClaimStepsKeepMarkets(s, a, id);
    } else if a.CreateMarket? || a.AddBase? || a.SetBase? || a.Lifecycle? || a.Resolve? || a.InitializeClaims?
              || a.InitializeWallet? {
      MarketStepsAdvance(s, a, id);
    } else {
      LedgerStepsKeepMarkets(s, a);
    }
  }

  /** Over a whole run a market only advances, and its outcome, once known, never changes. */
  lemma {:induction false} OutcomeIsFinal(states: seq<Chain>, actions: seq<Action>, i: nat, j: nat, id: Pubkey)
    requires Run(states, actions) && Initial(states[0]) && i <= j < |states| && id in states[i].books
    ensures id in states[j].books && Advances(states[i].books[id].market, states[j].books[id].market)
  {
    hide Inv, Step, Initial, Ages, Can, After;
    if i < j {
      OutcomeIsFinal(states, actions, i, j - 1, id);
      RunStep(states, actions, j - 1);
      StepAdvances(states[j - 1], actions[j - 1], id);
    }
  }

  /** A market opens for trading within its window only, and once it has left trading nobody can open it
      again; it is redeemable only by an announced outcome. */
  lemma OpensInItsWindow(s: Chain, id: Pubkey, a: Action)
    requires Inv(s) && Can(s, a) && id in s.books && id in After(s, a).books
    ensures var m, n := s.books[id].market, After(s, a).books[id].market;
            && (m.state != OPEN && n.state == OPEN ==>
                  && m.state == SCHEDULED && m.terms.tradingOpen <= s.now < m.terms.tradingCutoff
                  && Underlying(QUOTE) in m.initialized && Claim(QUOTE, 0) in m.initialized
                  && Claim(QUOTE, 1) in m.initialized
                  && exists i | 0 <= i < m.bases :: m.legs[i].active)
            && (m.state != REDEEMABLE && n.state == REDEEMABLE ==> m.state == AWAITING && a.Resolve?)
            && (m.state == OPEN && n.state != OPEN ==> n.state == FROZEN)
  {
    hide Inv, Can, After;
    if a.Lifecycle? || a.Resolve? {
      LifecycleOpens(s, id, a);
    } else {
      StateStays(s, id, a);
    }
  }

  lemma LifecycleOpens(s: Chain, id: Pubkey, a: Action)
    requires Can(s, a) && id in s.books && id in After(s, a).books && (a.Lifecycle? || a.Resolve?)
    ensures var m, n := s.books[id].market, After(s, a).books[id].market;
            && (m.state != OPEN && n.state == OPEN ==>
                  && m.state == SCHEDULED && m.terms.tradingOpen <= s.now < m.terms.tradingCutoff
                  && Underlying(QUOTE) in m.initialized && Claim(QUOTE, 0) in m.initialized
                  && Claim(QUOTE, 1) in m.initialized
                  && exists i | 0 <= i < m.bases :: m.legs[i].active)
            && (m.state != REDEEMABLE && n.state == REDEEMABLE ==> m.state == AWAITING && a.Resolve?)
            && (m.state == OPEN && n.state != OPEN ==> n.state == FROZEN)
  {
    hide Admissible, Placed, CanCancel, CanProcess, Processed, CanSplit, CanMerge, CanRedeem, Repositioned, CanDeposit,
      CanWithdraw, CanTransfer, CanClaimFees, CanShift, Moved, Transferred, Shifted, CanDepositPool, CanWithdrawPool,
      Transacted, PoolListed, CreditOpened, Donated, CanCreate, CanAddBase, CanSetBase, CanInitializeClaims, Created,
      Listing, Activated, ClaimsInitialized, WalletOpened, Market.Openable;
    var m := s.books[id].market;
    if m.Openable() { OpenableTrades(m); }
  }

  /** A market changes state for a reason: its outcome is announced, an administrator commits to it, it opens,
      or, once its cutoff has passed, anybody freezes it. */
  lemma StateChangesHaveCauses(s: Chain, id: Pubkey, a: Action)
    requires Inv(s) && Can(s, a) && id in s.books && id in After(s, a).books
    ensures var m, n := s.books[id].market, After(s, a).books[id].market;
            m.state != n.state ==>
              || (a.Resolve? && a.id == id && m.state == AWAITING && n.state == REDEEMABLE)
              || (a.Lifecycle? && a.id == id
                  && ((m.state == SCHEDULED && n.state == OPEN)
                      || (m.state == OPEN && n.state == FROZEN && (a.committed || m.terms.tradingCutoff <= s.now))
                      || (m.state == SCHEDULED && n.state == FROZEN && a.committed)
                      || (m.state == FROZEN && n.state == AWAITING && a.committed)
                      || (m.state == REDEEMABLE && n.state == ARCHIVED && a.committed)))
  {
    hide Inv, Can, After;
    if a.Lifecycle? || a.Resolve? {
      CausesAreGiven(s, id, a);
    } else {
      StateStays(s, id, a);
    }
  }

  lemma CausesAreGiven(s: Chain, id: Pubkey, a: Action)
    requires Can(s, a) && id in s.books && id in After(s, a).books && (a.Lifecycle? || a.Resolve?)
    ensures var m, n := s.books[id].market, After(s, a).books[id].market;
            m.state != n.state ==>
              || (a.Resolve? && a.id == id && m.state == AWAITING && n.state == REDEEMABLE)
              || (a.Lifecycle? && a.id == id
                  && ((m.state == SCHEDULED && n.state == OPEN)
                      || (m.state == OPEN && n.state == FROZEN && (a.committed || m.terms.tradingCutoff <= s.now))
                      || (m.state == SCHEDULED && n.state == FROZEN && a.committed)
                      || (m.state == FROZEN && n.state == AWAITING && a.committed)
                      || (m.state == REDEEMABLE && n.state == ARCHIVED && a.committed)))
  {
    hide Admissible, Placed, CanCancel, CanProcess, Processed, CanSplit, CanMerge, CanRedeem, Repositioned, CanDeposit,
      CanWithdraw, CanTransfer, CanClaimFees, CanShift, Moved, Transferred, Shifted, CanDepositPool, CanWithdrawPool,
      Transacted, PoolListed, CreditOpened, Donated, CanCreate, CanAddBase, CanSetBase, CanInitializeClaims, Created,
      Listing, Activated, ClaimsInitialized, WalletOpened, Market.Openable;
  }

  /** No market is stuck: anybody can freeze it past its cutoff, an administrator can freeze it before, and
      from there a commitment and an announcement resolve it. */
  lemma MarketsMoveOn(s: Chain, id: Pubkey, a: Action)
    requires Inv(s) && id in s.books
    requires var m := s.books[id].market;
             || (a == Lifecycle(id, 2, false) && m.state == OPEN && m.terms.tradingCutoff <= s.now)
             || (a == Lifecycle(id, 1, true) && (m.state == OPEN || m.state == SCHEDULED))
             || (a == Lifecycle(id, 3, true) && m.state == FROZEN)
             || (m.state == AWAITING && a in {Resolve(id, 1, 0), Resolve(id, 0, 1), Resolve(id, 1, 1)})
    ensures Can(s, a)
  {
    hide Inv, Market.Openable;
  }

  /** Each such step leaves the state it found behind. */
  lemma MovesOn(s: Chain, id: Pubkey, a: Action)
    requires Can(s, a) && id in s.books && (a.Lifecycle? || a.Resolve?) && a.id == id
    ensures id in After(s, a).books && Stage(s.books[id].market.state) < Stage(After(s, a).books[id].market.state)
  {
    hide Admissible, Placed, CanCancel, CanProcess, Processed, CanSplit, CanMerge, CanRedeem, Repositioned, CanDeposit,
      CanWithdraw, CanTransfer, CanClaimFees, CanShift, Moved, Transferred, Shifted, CanDepositPool, CanWithdrawPool,
      Transacted, PoolListed, CreditOpened, Donated, CanCreate, CanAddBase, CanSetBase, CanInitializeClaims, Created,
      Listing, Activated, ClaimsInitialized, WalletOpened, Market.Openable;
  }

  lemma OpenableTrades(m: Market)
    requires m.Openable()
    ensures Underlying(QUOTE) in m.initialized && Claim(QUOTE, 0) in m.initialized && Claim(QUOTE, 1) in m.initialized
    ensures exists i | 0 <= i < m.bases :: m.legs[i].active
  {
    var c :| 1 <= c <= m.bases && m.Active(c);
    assert m.legs[c - 1].active;
  }

  /** Every other step leaves the state of every market as it is. */
  lemma StateStays(s: Chain, id: Pubkey, a: Action)
    requires Inv(s) && Can(s, a) && id in s.books && id in After(s, a).books && !a.Lifecycle? && !a.Resolve?
    ensures After(s, a).books[id].market.state == s.books[id].market.state
  {
    hide Inv, Can, After, BookAges, RecordOf, WholeTicks, Ticks;
    if a.Place? || a.Cancel? || a.ProcessOrders? {
      OrderStepAges(s, a);
      if a.Place? && a.id == id {
        PlaceStep(s, a);
      }
    } else if a.Split? || a.Merge? || a.Redeem? {
      PositionStepsKeepMarkets(s, a, id);
    } else if a.Deposit? || a.Withdraw? || a.TransferCredit? || a.ClaimFees? || a.Shift? {
      ClaimStepsKeepMarkets(s, a, id);
    } else if a.CreateMarket? || a.AddBase? || a.SetBase? || a.InitializeClaims? || a.InitializeWallet? {
      ListingKeepsState(s, a, id);
    } else {
      LedgerStepsKeepMarkets(s, a);
    }
  }

  lemma ListingKeepsState(s: Chain, a: Action, id: Pubkey)
    requires Can(s, a) && id in s.books
    requires a.CreateMarket? || a.AddBase? || a.SetBase? || a.InitializeClaims? || a.InitializeWallet?
    ensures id in After(s, a).books && After(s, a).books[id].market.state == s.books[id].market.state
  {
    hide Admissible, Placed, CanCancel, CanProcess, Processed, CanSplit, CanMerge, CanRedeem, Repositioned, CanDeposit,
      CanWithdraw, CanTransfer, CanClaimFees, CanShift, Moved, Transferred, Shifted, CanDepositPool, CanWithdrawPool,
      Transacted, PoolListed, CreditOpened, Donated, ListingChecks, Scale, Market.Openable, Caps.Validate, NewBook;
  }

  // ------------------------------------------------------------------- settings

  /** The rates and the pause are what was last set, the clock what it last showed, and an owner's minimum
      nonce what the owner last raised it to: no other instruction moves them. */
  ghost predicate SettingsMove(s: Chain, a: Action, r: Chain) {
    && r.config.makerBps == (if a.Configure? then a.makerBps else s.config.makerBps)
    && r.config.takerBps == (if a.Configure? then a.takerBps else s.config.takerBps)
    && r.config.paused == (if a.Pause? then a.paused else s.config.paused)
    && r.now == (if a.Tick? then a.now else s.now)
    && (forall o | o in s.traders ::
          o in r.traders && r.traders[o] == (if a.InvalidateNonce? && a.owner == o then a.minimum else s.traders[o]))
    && (forall o | o in r.traders && o !in s.traders :: r.traders[o] == 0)
    && (a.InvalidateNonce? ==> a.owner in s.traders && s.traders[a.owner] < a.minimum)
    && (a.Pause? ==> a.paused != s.config.paused) && (a.Tick? ==> s.now <= a.now)
    && (a.Configure? ==> a.makerBps <= 1_000 && a.takerBps <= 1_000)
  }

  lemma SettingsStep(s: Chain, a: Action)
    requires Inv(s) && Can(s, a)
    ensures SettingsMove(s, a, After(s, a))
  {
    hide Inv, Can, After;
    if a.Place? || a.Cancel? || a.ProcessOrders? {
      OrdersMoveNoSetting(s, a);
    } else if a.Split? || a.Merge? || a.Redeem? || a.Deposit? || a.Withdraw? || a.TransferCredit? || a.ClaimFees?
              || a.Shift? {
      ClaimsMoveNoSetting(s, a);
    } else {
      MarketsMoveNoSetting(s, a);
    }
  }

  lemma OrdersMoveNoSetting(s: Chain, a: Action)
    requires Inv(s) && Can(s, a) && (a.Place? || a.Cancel? || a.ProcessOrders?)
    ensures SettingsMove(s, a, After(s, a))
  {
    hide CanSplit, CanMerge, CanRedeem, Repositioned, CanDeposit, CanWithdraw, CanTransfer, CanClaimFees, CanShift,
      Moved, Transferred, Shifted, CanCreate, CanAddBase, CanSetBase, CanResolve, CanInitializeClaims, Created, Listing,
      Activated, Resolved, ClaimsInitialized, CanDepositPool, CanWithdrawPool, Transacted, PoolListed, CreditOpened,
      Donated, LifecycleStep, Remarketed, WalletOpened, Inv, Admissible, FramesOk, Refundable, Flushing, Closing, Batch,
      Ticks, Retirable, Delisted, Releasable;
    if a.Place? {
      AdmissibleIsFillable(s, a.id, a.request);
    }
  }

  lemma ClaimsMoveNoSetting(s: Chain, a: Action)
    requires Can(s, a)
    requires a.Split? || a.Merge? || a.Redeem? || a.Deposit? || a.Withdraw? || a.TransferCredit? || a.ClaimFees?
             || a.Shift?
    ensures SettingsMove(s, a, After(s, a))
  {
    hide Admissible, Placed, CanCancel, CanProcess, Processed, CanCreate, CanAddBase, CanSetBase, CanResolve,
      CanInitializeClaims, Created, Listing, Activated, Resolved, ClaimsInitialized, CanDepositPool, CanWithdrawPool,
      Transacted, PoolListed, CreditOpened, Donated, ClaimMove, Vaulted, External, ClaimIndex, LifecycleStep,
      Remarketed, WalletOpened, Position, Exposable, Redemption, Holds, Market.Ready;
  }

  lemma MarketsMoveNoSetting(s: Chain, a: Action)
    requires Can(s, a)
    requires a.ListPool? || a.OpenCredit? || a.DepositPool? || a.WithdrawPool? || a.Donate? || a.Configure? || a.Pause?
             || a.InvalidateNonce? || a.Tick? || a.CreateMarket? || a.AddBase? || a.SetBase? || a.Lifecycle?
             || a.Resolve?
             || a.InitializeClaims? || a.InitializeWallet?
    ensures SettingsMove(s, a, After(s, a))
  {
    hide Admissible, Placed, CanCancel, CanProcess, Processed, CanSplit, CanMerge, CanRedeem, Repositioned, CanDeposit,
      CanWithdraw, CanTransfer, CanClaimFees, CanShift, Moved, Transferred, Shifted, ListingChecks, Scale,
      Market.Openable, Caps.Validate, NewBook, LifecycleStep, Listing, Activated, Resolved, ClaimsInitialized;
  }

  // ------------------------------------------------------------ what outcomes pay

  /** What the resolution stores is what it announces. */
  lemma ResolutionStores(s: Chain, id: Pubkey, yes: nat, no: nat)
    requires Can(s, Resolve(id, yes, no))
    ensures id in s.books && id in After(s, Resolve(id, yes, no)).books
    ensures var n := After(s, Resolve(id, yes, no)).books[id].market; n.state == REDEEMABLE && n.payouts == (yes, no)
  {
    hide Admissible, Placed, CanCancel, CanProcess, Processed, CanSplit, CanMerge, CanRedeem, Repositioned, CanDeposit,
      CanWithdraw, CanTransfer, CanClaimFees, CanShift, Moved, Transferred, Shifted, CanDepositPool, CanWithdrawPool,
      Transacted, PoolListed, CreditOpened, Donated, CanCreate, CanAddBase, CanSetBase, CanInitializeClaims, Created,
      Listing, Activated, ClaimsInitialized, WalletOpened;
  }

  /** What a redemption takes and pays: the owner's claims of both branches, and its pool credit. */
  ghost predicate Redeems(s: Chain, r: Chain, id: Pubkey, owner: Pubkey, c: nat, yes: nat, no: nat, paid: int)
    requires Positioned(s, id, owner, c)
  {
    var key := CreditKey(s.books[id].market.mints[c], owner);
    && r.credits == s.credits[key := s.credits[key] + paid]
    && id in r.books && r.books[id].wallets.Keys == s.books[id].wallets.Keys
    && var before, after := s.books[id].wallets[owner].balances, r.books[id].wallets[owner].balances;
    && after[Claim(c, 0)] == before[Claim(c, 0)] - yes && after[Claim(c, 1)] == before[Claim(c, 1)] - no
  }

  lemma RedemptionRedeems(s: Chain, id: Pubkey, owner: Pubkey, c: nat, yes: u64, no: u64)
    requires Can(s, Redeem(id, owner, c, yes, no))
    ensures Positioned(s, id, owner, c) && Payment(s.books[id].market, yes, no).Ok?
    ensures Redeems(s, After(s, Redeem(id, owner, c, yes, no)), id, owner, c, yes, no,
                    Payment(s.books[id].market, yes, no).value)
  {
    hide Admissible, Placed, CanCancel, CanProcess, Processed, CanSplit, CanMerge, CanDeposit, CanWithdraw, CanTransfer,
      CanClaimFees, CanShift, Moved, Transferred, Shifted, CanCreate, CanAddBase, CanSetBase, CanResolve,
      CanInitializeClaims, Created, Listing, Activated, Resolved, ClaimsInitialized, CanDepositPool, CanWithdrawPool,
      Transacted, PoolListed, CreditOpened, Donated, LifecycleStep, Remarketed, WalletOpened, Position, Payment,
      Market.Ready;
    PositionBalances(s.books[id], owner, c, -(yes as int), -(no as int),
                     -(Payment(s.books[id].market, yes, no).value as int));
  }

  /** What is paid once the outcome is known: the YES claims, the NO claims, or half of both. */
  lemma OutcomePays(m: Market, yes: u64, no: u64)
    requires m.state == REDEEMABLE || m.state == ARCHIVED
    ensures m.payouts == (1, 0) ==> Payment(m, yes, no) == Ok(yes)
    ensures m.payouts == (0, 1) ==> Payment(m, yes, no) == Ok(no)
    ensures m.payouts == (1, 1) ==>
              && (Payment(m, yes, no).Ok? <==> (yes + no) % 2 == 0)
              && (Payment(m, yes, no).Ok? ==> 2 * Payment(m, yes, no).value == yes + no)
  {
  }

  /** Whatever happens between the announcement of an outcome and a redemption, the redemption pays the
      announced outcome: a YES holder one for one if it was YES, a NO holder if it was NO, each half
      if the market was voided. */
  lemma RedemptionPaysTheOutcome(states: seq<Chain>, actions: seq<Action>, i: nat, j: nat)
    requires Run(states, actions) && Initial(states[0]) && i < j < |actions|
    requires actions[i].Resolve? && actions[j].Redeem? && actions[j].id == actions[i].id
    ensures var outcome, a, s := (actions[i].yes, actions[i].no), actions[j], states[j];
            && Positioned(s, a.id, a.owner, a.collateral)
            && (outcome == (1, 0) ==>
                  Redeems(s, states[j + 1], a.id, a.owner, a.collateral, a.yesAmount, a.noAmount, a.yesAmount))
            && (outcome == (0, 1) ==>
                  Redeems(s, states[j + 1], a.id, a.owner, a.collateral, a.yesAmount, a.noAmount, a.noAmount))
            && (outcome == (1, 1) ==>
                  (a.yesAmount + a.noAmount) % 2 == 0
                  && Redeems(s, states[j + 1], a.id, a.owner, a.collateral, a.yesAmount, a.noAmount,
                             (a.yesAmount + a.noAmount) / 2))
            && (outcome == (1, 0) || outcome == (0, 1) || outcome == (1, 1))
  {
    hide Inv, Step, Initial, Ages, Can, After, Redeems, Positioned, Payment;
    var a := actions[j];
    RunStep(states, actions, i);
    RunStep(states, actions, j);
    ResolutionStores(states[i], a.id, actions[i].yes, actions[i].no);
    AnnouncedIsValid(states[i], a.id, actions[i].yes, actions[i].no);
    OutcomeIsFinal(states, actions, i + 1, j, a.id);
    RedemptionRedeems(states[j], a.id, a.owner, a.collateral, a.yesAmount, a.noAmount);
    OutcomePays(states[j].books[a.id].market, a.yesAmount, a.noAmount);
  }

  lemma AnnouncedIsValid(s: Chain, id: Pubkey, yes: nat, no: nat)
    requires Can(s, Resolve(id, yes, no))
    ensures (yes, no) == (1, 0) || (yes, no) == (0, 1) || (yes, no) == (1, 1)
  {
  }

  /** Who holds claims of an announced outcome can redeem them: all of them if it was YES or NO, an even
      number if the market was voided. */
  lemma HoldersCanRedeem(s: Chain, id: Pubkey, owner: Pubkey, c: nat, yes: u64, no: u64)
    requires Positioned(s, id, owner, c) && yes + no > 0
    requires yes <= s.books[id].wallets[owner].balances[Claim(c, 0)]
             && no <= s.books[id].wallets[owner].balances[Claim(c, 1)]
    requires var m := s.books[id].market;
             && (m.state == REDEEMABLE || m.state == ARCHIVED)
             && (m.payouts == (1, 0) || m.payouts == (0, 1) || (m.payouts == (1, 1) && (yes + no) % 2 == 0))
    ensures Can(s, Redeem(id, owner, c, yes, no))
  {
    hide Payment, Market.Ready;
    OutcomePays(s.books[id].market, yes, no);
  }

  /** Before the outcome is announced nothing can be redeemed. */
  lemma NothingBeforeTheOutcome(s: Chain, id: Pubkey, owner: Pubkey, c: nat, yes: u64, no: u64)
    requires Can(s, Redeem(id, owner, c, yes, no))
    ensures id in s.books && (s.books[id].market.state == REDEEMABLE || s.books[id].market.state == ARCHIVED)
  {
    hide Market.Ready, Redemption;
  }
}
