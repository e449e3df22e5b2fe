/** Claim custody beside positions: deposits and withdrawals of claim tokens, transfers
    between wallets, fee claims, and what token holders can do on their own. */
module Custody {
  import opened Exact
  import opened Rules
  import opened Sums
  import opened Conversion
  import opened State
  import opened Settlement
  import opened InFlight
  import opened Matching
  import opened Chain
  import opened Exchange
  import opened Positions

  /** A claim asset of a listed collateral. */
  predicate ClaimIndex(m: Market, asset: nat) {
    asset < ASSETS && IsClaim(asset) && m.Listed(CollateralOf(asset))
  }

  /** A claim asset whose mint and vault exist. */
  predicate ClaimToken(m: Market, asset: nat) {
    ClaimIndex(m, asset) && asset in m.initialized
  }

  function Vaulted(b: Book, asset: nat, supply: int, vault: int): (r: Book)
    requires asset < ASSETS
    ensures r == b.(tokens := r.tokens)
  {
    var t := b.tokens[asset];
    b.(tokens := b.tokens[asset := ClaimTokens(t.supply + supply, t.vault + vault)])
  }

  /** Tokens of a claim held outside the market's vault. */
  function External(b: Book, asset: nat): int
    requires asset < ASSETS
  {
    b.tokens[asset].supply - b.tokens[asset].vault
  }

  /** One owner's claims, the fees and the tokens of one claim asset change together. */
  function ClaimMove(b: Book, owner: Pubkey, asset: nat, amount: int, fees: int, supply: int, vault: int): (r: Book)
    requires owner in b.wallets && asset < ASSETS
    ensures r.wallets.Keys == b.wallets.Keys && r.market == b.market && r.orders == b.orders
    ensures r.ledgers.backing == b.ledgers.backing
  {
    Post(AddFees(Vaulted(b, asset, supply, vault), asset, fees), owner, asset, amount)
  }

  lemma ClaimMoveBooks(b: Book, owner: Pubkey, asset: nat, amount: int, fees: int, supply: int, vault: int)
    requires owner in b.wallets && asset < ASSETS && IsClaim(asset)
    ensures var r := ClaimMove(b, owner, asset, amount, fees, supply, vault);
            && (forall a | 0 <= a < ASSETS ::
                  r.ledgers.Liability(a) == b.ledgers.Liability(a) + (if a == asset then amount + fees else 0))
            && (forall a | 0 <= a < ASSETS && a != asset :: r.tokens[a] == b.tokens[a])
            && r.tokens[asset] == ClaimTokens(b.tokens[asset].supply + supply, b.tokens[asset].vault + vault)
            && (forall a | 0 <= a < ASSETS :: r.ledgers.fees[a] == b.ledgers.fees[a] + (if a == asset then fees else 0))
            && r.ledgers.openNotional == b.ledgers.openNotional
  {
  }

  lemma ClaimMoveBalances(b: Book, owner: Pubkey, asset: nat, amount: int, fees: int, supply: int, vault: int)
    requires owner in b.wallets && asset < ASSETS
    ensures var r := ClaimMove(b, owner, asset, amount, fees, supply, vault);
            forall o | o in b.wallets ::
              && r.wallets[o].openNotional == b.wallets[o].openNotional
              && forall a | 0 <= a < ASSETS ::
                   r.wallets[o].balances[a] == b.wallets[o].balances[a]
                     + (if o == owner && a == asset then amount else 0)
  {
  }

  lemma ClaimMoveKeepsBalance(b: Book, owner: Pubkey, asset: nat, amount: int, fees: int, supply: int, vault: int)
    requires Balanced(b) && owner in b.wallets && asset < ASSETS
    ensures Balanced(ClaimMove(b, owner, asset, amount, fees, supply, vault))
  {
    var v := Vaulted(b, asset, supply, vault);
    assert Balanced(v);
    SideLedgersKeepBalance(v, 0, asset, fees);
    PostKeepsBalance(AddFees(v, asset, fees), owner, asset, amount);
  }

  /** A claim move keeps the books when custody still covers what is owed, and no supply grows. */
  lemma ClaimMoveKeepsBook(b: Book, owner: Pubkey, asset: nat, amount: int, fees: int, supply: int, vault: int)
    requires BookOk(b) && owner in b.wallets && ClaimIndex(b.market, asset)
    requires b.wallets[owner].balances[asset] + amount >= 0 && b.ledgers.fees[asset] + fees >= 0
    requires supply <= 0 && vault - supply <= External(b, asset)
    requires b.ledgers.Liability(asset) + amount + fees <= b.tokens[asset].vault + vault
    ensures var r := ClaimMove(b, owner, asset, amount, fees, supply, vault);
            BookOk(r) && SameMarket(b, r) && Owes(b, r, 0, 0)
  {
    hide ClaimMove, Balanced, OrdersOk, TermsOk, LegsOk, LifecycleOk, Ledgers.Liability, Market.Payouts, Backed;
    var r := ClaimMove(b, owner, asset, amount, fees, supply, vault);
    ClaimMoveBooks(b, owner, asset, amount, fees, supply, vault);
    ClaimMoveBalances(b, owner, asset, amount, fees, supply, vault);
    ClaimMoveKeepsBalance(b, owner, asset, amount, fees, supply, vault);
    CoreAfter(b, r);
    ClaimMoveBacked(b, r, asset, amount + fees, supply, vault);
  }

  lemma ClaimMoveBacked(b: Book, r: Book, asset: nat, owed: int, supply: int, vault: int)
    requires Core(r) && Backed(b, NO_AMOUNTS) && asset < ASSETS && IsClaim(asset) && r.market == b.market
    requires r.ledgers.backing == b.ledgers.backing
    requires forall a | 0 <= a < ASSETS ::
               r.ledgers.Liability(a) == b.ledgers.Liability(a) + (if a == asset then owed else 0)
    requires forall a | 0 <= a < ASSETS && a != asset :: r.tokens[a] == b.tokens[a]
    requires r.tokens[asset] == ClaimTokens(b.tokens[asset].supply + supply, b.tokens[asset].vault + vault)
    requires supply <= 0 && vault - supply <= External(b, asset)
    requires b.ledgers.Liability(asset) + owed <= b.tokens[asset].vault + vault
    ensures Backed(r, NO_AMOUNTS)
  {
    hide Core, Ledgers.Liability, Market.Payouts;
    forall c | 0 <= c < COLLATERALS
      ensures CollateralBacked(r.market, r.ledgers, r.tokens, NO_AMOUNTS, c)
    {
      assert CollateralBacked(b.market, b.ledgers, b.tokens, NO_AMOUNTS, c);
    }
    forall a | 0 <= a < ASSETS && IsClaim(a)
      ensures ClaimCovered(r.ledgers, r.tokens, NO_AMOUNTS, a)
    {
      assert ClaimCovered(b.ledgers, b.tokens, NO_AMOUNTS, a);
      ClaimLiability(r, a);
    }
  }

  // --------------------------------------------------------------- the operations

  function Moved(s: Chain, id: Pubkey, owner: Pubkey, asset: nat, amount: int, fees: int, supply: int,
                 vault: int): Chain
    requires id in s.books && owner in s.books[id].wallets && asset < ASSETS
  {
    s.(books := s.books[id := ClaimMove(s.books[id], owner, asset, amount, fees, supply, vault)])
  }

  lemma MovedKeepsInv(s: Chain, id: Pubkey, owner: Pubkey, asset: nat, amount: int, fees: int, supply: int, vault: int)
    requires Inv(s) && id in s.books && owner in s.books[id].wallets && ClaimIndex(s.books[id].market, asset)
    requires var b := s.books[id];
             && b.wallets[owner].balances[asset] + amount >= 0 && b.ledgers.fees[asset] + fees >= 0
             && supply <= 0 && vault - supply <= External(b, asset)
             && b.ledgers.Liability(asset) + amount + fees <= b.tokens[asset].vault + vault
    ensures Inv(Moved(s, id, owner, asset, amount, fees, supply, vault))
  {
    hide Inv, BookOk, ClaimMove, Owes, SameMarket, Ledgers.Liability;
    InvBook(s, id);
    ClaimMoveKeepsBook(s.books[id], owner, asset, amount, fees, supply, vault);
    SwappedKeepsInv(s, id, ClaimMove(s.books[id], owner, asset, amount, fees, supply, vault));
  }

  /** Custody of a claim covers what is owed in it. */
  lemma ClaimCustody(s: Chain, id: Pubkey, asset: nat)
    requires Inv(s) && id in s.books && asset < ASSETS && IsClaim(asset)
    ensures var b := s.books[id];
            && b.ledgers.Liability(asset) <= b.tokens[asset].vault <= b.tokens[asset].supply
            && b.ledgers.fees[asset] >= 0
            && forall o | o in b.wallets :: 0 <= b.wallets[o].balances[asset] <= U64_MAX
  {
    hide Inv, OrdersOk, TermsOk, LegsOk, LifecycleOk, Ledgers.Liability, Drained, ExposureCapped, UnlistedEmpty,
      OnlyResting, Balanced;
    InvBook(s, id);
    var b := s.books[id];
    assert ClaimCovered(b.ledgers, b.tokens, NO_AMOUNTS, asset);
    forall o | o in b.wallets
      ensures 0 <= b.wallets[o].balances[asset] <= U64_MAX
    {
      HeldClaims(b, o, asset);
    }
  }

  predicate CanDeposit(s: Chain, id: Pubkey, owner: Pubkey, asset: nat, amount: u64) {
    && id in s.books && ClaimToken(s.books[id].market, asset) && amount > 0
    && owner in s.books[id].wallets && amount <= External(s.books[id], asset)
  }

  /** Claim tokens a holder deposits are custody for the claim its wallet gains. */
  lemma DepositKeepsInv(s: Chain, id: Pubkey, owner: Pubkey, asset: nat, amount: u64)
    requires Inv(s) && CanDeposit(s, id, owner, asset, amount)
    ensures Inv(Moved(s, id, owner, asset, amount, 0, 0, amount))
  {
    hide Inv, Ledgers.Liability, Moved, Market.Listed;
    ClaimCustody(s, id, asset);
    MovedKeepsInv(s, id, owner, asset, amount, 0, 0, amount);
  }

  predicate CanWithdraw(s: Chain, id: Pubkey, owner: Pubkey, asset: nat, amount: u64) {
    && id in s.books && ClaimToken(s.books[id].market, asset) && amount > 0
    && owner in s.books[id].wallets && s.books[id].wallets[owner].balances[asset] >= amount
  }

  lemma WithdrawKeepsInv(s: Chain, id: Pubkey, owner: Pubkey, asset: nat, amount: u64)
    requires Inv(s) && CanWithdraw(s, id, owner, asset, amount)
    ensures s.books[id].tokens[asset].vault >= amount
    ensures Inv(Moved(s, id, owner, asset, -(amount as int), 0, 0, -(amount as int)))
  {
    hide Inv, Ledgers.Liability, Moved, Market.Listed;
    ClaimCustody(s, id, asset);
    VaultCoversBalance(s, id, owner, asset);
    MovedKeepsInv(s, id, owner, asset, -(amount as int), 0, 0, -(amount as int));
  }

  lemma VaultCoversBalance(s: Chain, id: Pubkey, owner: Pubkey, asset: nat)
    requires Inv(s) && id in s.books && owner in s.books[id].wallets && asset < ASSETS && IsClaim(asset)
    ensures s.books[id].wallets[owner].balances[asset] <= s.books[id].tokens[asset].vault
  {
    hide Inv, BookOk;
    InvBook(s, id);
    HeldClaims(s.books[id], owner, asset);
  }

  predicate CanClaimFees(s: Chain, id: Pubkey, target: Pubkey, asset: nat, amount: u64) {
    && id in s.books && ClaimIndex(s.books[id].market, asset) && amount > 0
    && target in s.books[id].wallets && s.books[id].ledgers.fees[asset] >= amount
  }

  lemma ClaimFeesKeepsInv(s: Chain, id: Pubkey, target: Pubkey, asset: nat, amount: u64)
    requires Inv(s) && CanClaimFees(s, id, target, asset, amount)
    ensures Inv(Moved(s, id, target, asset, amount, -(amount as int), 0, 0))
  {
    hide Inv, Ledgers.Liability, Moved, Market.Listed;
    ClaimCustody(s, id, asset);
    MovedKeepsInv(s, id, target, asset, amount, -(amount as int), 0, 0);
  }

  /** Holders outside the market burn claims, or send them to the vault without a deposit. */
  function Shifted(s: Chain, id: Pubkey, asset: nat, supply: int, vault: int): Chain
    requires id in s.books && asset < ASSETS
  {
    s.(books := s.books[id := Vaulted(s.books[id], asset, supply, vault)])
  }

  predicate CanShift(s: Chain, id: Pubkey, asset: nat, supply: int, vault: int) {
    && id in s.books && ClaimToken(s.books[id].market, asset)
    && supply <= 0 <= vault && vault - supply <= External(s.books[id], asset)
  }

  lemma ShiftKeepsInv(s: Chain, id: Pubkey, asset: nat, supply: int, vault: int)
    requires Inv(s) && CanShift(s, id, asset, supply, vault)
    ensures Inv(Shifted(s, id, asset, supply, vault))
  {
    hide Inv, BookOk, Owes, SameMarket, Market.Listed;
    InvBook(s, id);
    ShiftKeepsBook(s.books[id], asset, supply, vault);
    SwappedKeepsInv(s, id, Vaulted(s.books[id], asset, supply, vault));
  }

  lemma ShiftKeepsBook(b: Book, asset: nat, supply: int, vault: int)
    requires BookOk(b) && ClaimIndex(b.market, asset) && supply <= 0 <= vault && vault - supply <= External(b, asset)
    ensures var r := Vaulted(b, asset, supply, vault); BookOk(r) && SameMarket(b, r) && Owes(b, r, 0, 0)
  {
    hide OrdersOk, TermsOk, LegsOk, LifecycleOk, Ledgers.Liability, Market.Payouts, Backed;
    var r := Vaulted(b, asset, supply, vault);
    assert ClaimCovered(b.ledgers, b.tokens, NO_AMOUNTS, asset) by { BookCovers(b, asset); }
    CoreAfter(b, r);
    ClaimMoveBacked(b, r, asset, 0, supply, vault);
  }

  lemma BookCovers(b: Book, asset: nat)
    requires BookOk(b) && asset < ASSETS && IsClaim(asset)
    ensures ClaimCovered(b.ledgers, b.tokens, NO_AMOUNTS, asset)
  {
    hide ClaimCovered, Core;
  }

  /** Moving a claim between two wallets. */
  function Transferred(s: Chain, id: Pubkey, source: Pubkey, target: Pubkey, asset: nat, amount: int): Chain
    requires id in s.books && source in s.books[id].wallets && target in s.books[id].wallets && asset < ASSETS
  {
    Moved(Moved(s, id, source, asset, -amount, 0, 0, 0), id, target, asset, amount, 0, 0, 0)
  }

  predicate CanTransfer(s: Chain, id: Pubkey, source: Pubkey, target: Pubkey, asset: nat, amount: u64) {
    && id in s.books && ClaimIndex(s.books[id].market, asset) && amount > 0 && source != target
    && source in s.books[id].wallets && target in s.books[id].wallets
    && s.books[id].wallets[source].balances[asset] >= amount
  }

  lemma TransferKeepsInv(s: Chain, id: Pubkey, source: Pubkey, target: Pubkey, asset: nat, amount: u64)
    requires Inv(s) && CanTransfer(s, id, source, target, asset, amount)
    ensures Inv(Transferred(s, id, source, target, asset, amount))
  {
    hide Inv, Ledgers.Liability, Market.Listed, ClaimMove;
    ClaimCustody(s, id, asset);
    var paid := Moved(s, id, source, asset, -(amount as int), 0, 0, 0);
    MovedKeepsInv(s, id, source, asset, -(amount as int), 0, 0, 0);
    ClaimCustody(paid, id, asset);
    ClaimMoveBooks(s.books[id], source, asset, -(amount as int), 0, 0, 0);
    MovedKeepsInv(paid, id, target, asset, amount, 0, 0, 0);
  }
}
