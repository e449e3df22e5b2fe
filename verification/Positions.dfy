/** Claim positions: splitting, merging and redeeming move one amount between pool credit,
    backing, claim tokens and wallet claims, and stay backed in every outcome. */
module Positions {
  import opened Exact
  import opened Rules
  import opened Sums
  import opened Conversion
  import opened State
  import opened Settlement
  import opened InFlight
  import opened Matching
  import opened Chain
  import opened Exchange
  import opened Placing

  // ------------------------------------------------------------- one position

  /** Claim supply and custody of one collateral change together. */
  function Retoken(b: Book, c: nat, yes: int, no: int): (r: Book)
    requires c < COLLATERALS
    ensures r == b.(tokens := r.tokens)
  {
    var y, n := b.tokens[Claim(c, 0)], b.tokens[Claim(c, 1)];
    b.(tokens := b.tokens[Claim(c, 0) := ClaimTokens(y.supply + yes, y.vault + yes)]
                         [Claim(c, 1) := ClaimTokens(n.supply + no, n.vault + no)])
  }

  /** The owner's claims, the tokens behind them and their backing change together. */
  function Position(b: Book, owner: Pubkey, c: nat, yes: int, no: int, backing: int): (r: Book)
    requires c < COLLATERALS && owner in b.wallets
    ensures r.wallets.Keys == b.wallets.Keys && r.market == b.market && r.orders == b.orders
  {
    Post(Post(Retoken(AddBacking(b, c, backing), c, yes, no), owner, Claim(c, 0), yes), owner, Claim(c, 1), no)
  }

  lemma PositionMoves(b: Book, owner: Pubkey, c: nat, yes: int, no: int, backing: int)
    requires c < COLLATERALS && owner in b.wallets
    ensures var r := Position(b, owner, c, yes, no, backing);
            && (forall k | 0 <= k < COLLATERALS ::
                  && r.ledgers.Liability(Underlying(k))
                     == b.ledgers.Liability(Underlying(k)) + (if k == c then backing else 0)
                  && r.ledgers.Liability(Claim(k, 0)) == b.ledgers.Liability(Claim(k, 0)) + (if k == c then yes else 0)
                  && r.ledgers.Liability(Claim(k, 1)) == b.ledgers.Liability(Claim(k, 1)) + (if k == c then no else 0)
                  && r.ledgers.backing[k] == b.ledgers.backing[k] + (if k == c then backing else 0)
                  && r.tokens[Claim(k, 0)] == (if k == c then
                     ClaimTokens(b.tokens[Claim(c, 0)].supply + yes, b.tokens[Claim(c, 0)].vault + yes)
                                               else b.tokens[Claim(k, 0)])
                  && r.tokens[Claim(k, 1)] == (if k == c then
                     ClaimTokens(b.tokens[Claim(c, 1)].supply + no, b.tokens[Claim(c, 1)].vault + no)
                                               else b.tokens[Claim(k, 1)]))
            && r.ledgers.fees == b.ledgers.fees && r.ledgers.openNotional == b.ledgers.openNotional
  {
  }

  lemma PositionAt(b: Book, owner: Pubkey, c: nat, yes: int, no: int, backing: int)
    requires c < COLLATERALS && owner in b.wallets
    ensures var r := Position(b, owner, c, yes, no, backing);
            && r.ledgers.backing[c] == b.ledgers.backing[c] + backing
            && r.tokens[Claim(c, 0)].supply == b.tokens[Claim(c, 0)].supply + yes
            && r.tokens[Claim(c, 1)].supply == b.tokens[Claim(c, 1)].supply + no
  {
  }

  lemma PositionBalances(b: Book, owner: Pubkey, c: nat, yes: int, no: int, backing: int)
    requires c < COLLATERALS && owner in b.wallets
    ensures var r := Position(b, owner, c, yes, no, backing);
            forall o | o in b.wallets ::
              && r.wallets[o].openNotional == b.wallets[o].openNotional
              && forall a | 0 <= a < ASSETS ::
                   r.wallets[o].balances[a] == b.wallets[o].balances[a]
                                               + (if o == owner && a == Claim(c, 0) then yes
                                                  else if o == owner && a == Claim(c, 1) then no else 0)
  {
  }

  lemma PositionKeepsBalance(b: Book, owner: Pubkey, c: nat, yes: int, no: int, backing: int)
    requires Balanced(b) && c < COLLATERALS && owner in b.wallets
    ensures Balanced(Position(b, owner, c, yes, no, backing))
  {
    hide Post;
    SideLedgersKeepBalance(b, c, 0, backing);
    var t := Retoken(AddBacking(b, c, backing), c, yes, no);
    RetokenKeepsBalance(AddBacking(b, c, backing), c, yes, no);
    PostKeepsBalance(t, owner, Claim(c, 0), yes);
    PostKeepsBalance(Post(t, owner, Claim(c, 0), yes), owner, Claim(c, 1), no);
  }

  lemma RetokenKeepsBalance(b: Book, c: nat, yes: int, no: int)
    requires Balanced(b) && c < COLLATERALS
    ensures Balanced(Retoken(b, c, yes, no))
  {
  }

  /** A position change keeps the books, if the owner can give what it takes and what is
      outstanding afterwards is backed. */
  lemma PositionKeepsBook(b: Book, owner: Pubkey, c: nat, yes: int, no: int, backing: int)
    requires BookOk(b) && c < COLLATERALS && c <= b.market.bases && owner in b.wallets
    requires b.wallets[owner].balances[Claim(c, 0)] + yes >= 0 && b.wallets[owner].balances[Claim(c, 1)] + no >= 0
    requires b.ledgers.backing[c] + backing >= 0
    requires b.tokens[Claim(c, 0)].supply + yes <= U64_MAX && b.tokens[Claim(c, 1)].supply + no <= U64_MAX
    requires var r := Position(b, owner, c, yes, no, backing);
             CollateralBacked(r.market, r.ledgers, r.tokens, NO_AMOUNTS, c)
    ensures var r := Position(b, owner, c, yes, no, backing);
            BookOk(r) && SameMarket(b, r) && Owes(b, r, c, backing)
  {
    hide Position, Balanced, OrdersOk, TermsOk, LegsOk, LifecycleOk, Ledgers.Liability, Market.Payouts,
      CollateralBacked, Backed;
    var r := Position(b, owner, c, yes, no, backing);
    PositionMoves(b, owner, c, yes, no, backing);
    PositionBalances(b, owner, c, yes, no, backing);
    PositionKeepsBalance(b, owner, c, yes, no, backing);
    CoreAfter(b, r);
    PositionBacked(b, r, c, yes, no);
  }

  lemma PositionBacked(b: Book, r: Book, c: nat, yes: int, no: int)
    requires Core(r) && Backed(b, NO_AMOUNTS) && c < COLLATERALS && r.market == b.market
    requires forall k | 0 <= k < COLLATERALS ::
               && r.ledgers.Liability(Claim(k, 0)) == b.ledgers.Liability(Claim(k, 0)) + (if k == c then yes else 0)
               && r.ledgers.Liability(Claim(k, 1)) == b.ledgers.Liability(Claim(k, 1)) + (if k == c then no else 0)
               && (k != c ==> r.ledgers.backing[k] == b.ledgers.backing[k])
               && (k != c ==>
                     r.tokens[Claim(k, 0)] == b.tokens[Claim(k, 0)] && r.tokens[Claim(k, 1)] == b.tokens[Claim(k, 1)])
    requires r.tokens[Claim(c, 0)] == ClaimTokens(b.tokens[Claim(c, 0)].supply + yes, b.tokens[Claim(c, 0)].vault + yes)
    requires r.tokens[Claim(c, 1)] == ClaimTokens(b.tokens[Claim(c, 1)].supply + no, b.tokens[Claim(c, 1)].vault + no)
    requires b.tokens[Claim(c, 0)].supply + yes <= U64_MAX && b.tokens[Claim(c, 1)].supply + no <= U64_MAX
    requires CollateralBacked(r.market, r.ledgers, r.tokens, NO_AMOUNTS, c)
    ensures Backed(r, NO_AMOUNTS)
  {
    hide Core, Ledgers.Liability, Market.Payouts, CollateralBacked;
    forall k | 0 <= k < COLLATERALS
      ensures CollateralBacked(r.market, r.ledgers, r.tokens, NO_AMOUNTS, k)
      ensures ClaimCovered(r.ledgers, r.tokens, NO_AMOUNTS, Claim(k, 0))
      ensures ClaimCovered(r.ledgers, r.tokens, NO_AMOUNTS, Claim(k, 1))
    {
      if k != c {
        OtherCollateral(b, r, k);
      }
      assert ClaimCovered(b.ledgers, b.tokens, NO_AMOUNTS, Claim(k, 0));
      assert ClaimCovered(b.ledgers, b.tokens, NO_AMOUNTS, Claim(k, 1));
      ClaimLiability(r, Claim(k, 0));
      ClaimLiability(r, Claim(k, 1));
    }
    forall a | 0 <= a < ASSETS && IsClaim(a)
      ensures ClaimCovered(r.ledgers, r.tokens, NO_AMOUNTS, a)
    {
      assert a == Claim(CollateralOf(a), 0) || a == Claim(CollateralOf(a), 1);
    }
  }

  lemma CoreAfter(b: Book, r: Book)
    requires Core(b) && Balanced(r) && r.market == b.market && r.orders == b.orders && NonNegative(r)
    ensures Core(r)
  {
    hide Balanced, OrderOk, TermsOk, NonNegative;
  }

  lemma OtherCollateral(b: Book, r: Book, k: nat)
    requires k < COLLATERALS && r.market == b.market && r.ledgers.backing[k] == b.ledgers.backing[k]
    requires r.tokens[Claim(k, 0)] == b.tokens[Claim(k, 0)] && r.tokens[Claim(k, 1)] == b.tokens[Claim(k, 1)]
    requires CollateralBacked(b.market, b.ledgers, b.tokens, NO_AMOUNTS, k)
    ensures CollateralBacked(r.market, r.ledgers, r.tokens, NO_AMOUNTS, k)
  {
    hide Market.Payouts;
  }

  lemma ClaimLiability(b: Book, a: nat)
    requires Core(b) && a < ASSETS && IsClaim(a)
    ensures b.ledgers.Liability(a) >= b.ledgers.credits[a] >= 0
  {
    hide Balanced, OrdersOk, TermsOk;
    LedgersNonNegative(b, a);
  }

  // ------------------------------------------------- splitting, merging, redeeming

  /** The accounts a position operation presents: a ready collateral, the owner's wallet and
      its credit account in the collateral's pool. */
  predicate Positioned(s: Chain, id: Pubkey, owner: Pubkey, c: nat) {
    && id in s.books && c < COLLATERALS && s.books[id].market.Ready(c)
    && owner in s.books[id].wallets && CreditKey(s.books[id].market.mints[c], owner) in s.credits
  }

  predicate Holds(b: Book, owner: Pubkey, c: nat, yes: int, no: int)
    requires c < COLLATERALS && owner in b.wallets
  {
    yes <= b.wallets[owner].balances[Claim(c, 0)] && no <= b.wallets[owner].balances[Claim(c, 1)]
  }

  /** The state after a position operation: what it takes from backing is paid to pool credit. */
  function Repositioned(s: Chain, id: Pubkey, owner: Pubkey, c: nat, yes: int, no: int, backing: int): Chain
    requires Positioned(s, id, owner, c)
  {
    var key := CreditKey(s.books[id].market.mints[c], owner);
    Rebooked(s, id, Position(s.books[id], owner, c, yes, no, backing), key, s.credits[key] - backing)
  }

  /** Splitting needs an exposable leg, the credit, and mints that do not overflow. */
  predicate CanSplit(s: Chain, id: Pubkey, owner: Pubkey, c: nat, amount: u64, leg: LegLive) {
    && Positioned(s, id, owner, c) && amount > 0
    && var b := s.books[id];
    && (c == QUOTE || Exposable(b.market, c, leg))
    && s.credits[CreditKey(b.market.mints[c], owner)] >= amount
    && b.tokens[Claim(c, 0)].supply + amount <= U64_MAX && b.tokens[Claim(c, 1)].supply + amount <= U64_MAX
  }

  /** Whoever holds the credit can split it while the outcome is open: the claims outstanding are backed
      one for one, and their backing and the credit are both owed by one 64-bit pool. */
  lemma OpenSplitFits(s: Chain, id: Pubkey, owner: Pubkey, c: nat, amount: u64, leg: LegLive)
    requires Inv(s) && Positioned(s, id, owner, c) && s.books[id].market.Payouts().None?
    ensures CanSplit(s, id, owner, c, amount, leg) <==>
              && amount > 0 && (c == QUOTE || Exposable(s.books[id].market, c, leg))
              && s.credits[CreditKey(s.books[id].market.mints[c], owner)] >= amount
  {
    hide Inv, BookOk, Demand, Exposable, Market.Ready, Core, Ledgers.Liability;
    var b, mint := s.books[id], s.books[id].market.mints[c];
    InvBook(s, id);
    ReadyIsListed(b.market, c);
    PoolHolds(s, id, mint);
    ShareFits(b, mint, c);
    BookBacked(b, c);
    BackingIsOwed(b, c);
    CreditIsOwed(s, CreditKey(mint, owner));
  }

  lemma BackingIsOwed(b: Book, c: nat)
    requires Core(b) && c < COLLATERALS
    ensures b.ledgers.backing[c] <= b.ledgers.Liability(Underlying(c))
  {
    hide Core;
    LedgersNonNegative(b, Underlying(c));
  }

  /** An owner's credit is part of what its pool owes to owners. */
  lemma CreditIsOwed(s: Chain, key: CreditKey)
    requires Inv(s) && key in s.credits
    ensures s.credits[key] <= SumBy(s.credits, CreditIn(key.mint)) && key.mint in s.pools
  {
    hide BooksOk, PoolsBalanced;
    SumAtLeast(s.credits, key, CreditIn(key.mint));
  }

  predicate CanMerge(s: Chain, id: Pubkey, owner: Pubkey, c: nat, amount: u64) {
    Positioned(s, id, owner, c) && amount > 0 && Holds(s.books[id], owner, c, amount, amount)
  }

  /** What a redemption pays, if the outcome is known and it wastes no fraction of a unit. */
  function Payment(m: Market, yes: u64, no: u64): Rules.Result<u64> {
    match m.Payouts()
    case None => Err(Rules.InvalidState)
    case Some(p) => Redemption(yes, no, p.0, p.1)
  }

  predicate CanRedeem(s: Chain, id: Pubkey, owner: Pubkey, c: nat, yes: u64, no: u64) {
    && Positioned(s, id, owner, c) && (yes > 0 || no > 0)
    && Payment(s.books[id].market, yes, no).Ok? && Holds(s.books[id], owner, c, yes, no)
  }

  /** A wallet's claims are custody the market has tokens for. */
  lemma HeldClaims(b: Book, owner: Pubkey, a: nat)
    requires BookOk(b) && owner in b.wallets && a < ASSETS && IsClaim(a)
    ensures 0 <= b.wallets[owner].balances[a] <= b.tokens[a].vault <= b.tokens[a].supply <= U64_MAX
  {
    hide OrdersOk, TermsOk, LegsOk, LifecycleOk, Ledgers.Liability, Drained, ExposureCapped, UnlistedEmpty, OnlyResting;
    assert ClaimCovered(b.ledgers, b.tokens, NO_AMOUNTS, a);
    ClaimLiability(b, a);
    forall o | o in b.wallets
      ensures BalanceOf(a)(o, b.wallets[o]) >= 0
    {
    }
    SumAtLeast(b.wallets, owner, BalanceOf(a));
  }

  lemma ReadyIsListed(m: Market, c: nat)
    requires m.Ready(c)
    ensures c <= m.bases
  {
  }

  lemma RepositionedKeepsInv(s: Chain, id: Pubkey, owner: Pubkey, c: nat, yes: int, no: int, backing: int)
    requires Inv(s) && Positioned(s, id, owner, c) && Holds(s.books[id], owner, c, -yes, -no)
    requires s.credits[CreditKey(s.books[id].market.mints[c], owner)] >= backing
    requires var b := s.books[id];
             && b.ledgers.backing[c] + backing >= 0
             && b.tokens[Claim(c, 0)].supply + yes <= U64_MAX && b.tokens[Claim(c, 1)].supply + no <= U64_MAX
             && var r := Position(b, owner, c, yes, no, backing);
             CollateralBacked(r.market, r.ledgers, r.tokens, NO_AMOUNTS, c)
    ensures Inv(Repositioned(s, id, owner, c, yes, no, backing))
  {
    hide Inv, Position, BookOk, CollateralBacked, Owes, SameMarket, Market.Ready;
    InvBook(s, id);
    ReadyIsListed(s.books[id].market, c);
    PositionKeepsBook(s.books[id], owner, c, yes, no, backing);
    RebookedKeepsInv(s, id, Position(s.books[id], owner, c, yes, no, backing), c, owner, backing);
  }

  lemma SplitIsBacked(b: Book, owner: Pubkey, c: nat, amount: u64)
    requires BookOk(b) && owner in b.wallets && c < COLLATERALS
    ensures b.ledgers.backing[c] >= 0 && Holds(b, owner, c, 0, 0)
    ensures var r := Position(b, owner, c, amount, amount, amount);
            CollateralBacked(r.market, r.ledgers, r.tokens, NO_AMOUNTS, c)
  {
    hide BookOk, Position;
    PositionAt(b, owner, c, amount, amount, amount);
    BookBacked(b, c);
    HeldClaims(b, owner, Claim(c, 0));
    HeldClaims(b, owner, Claim(c, 1));
  }

  lemma SplitKeepsInv(s: Chain, id: Pubkey, owner: Pubkey, c: nat, amount: u64, leg: LegLive)
    requires Inv(s) && CanSplit(s, id, owner, c, amount, leg)
    ensures Inv(Repositioned(s, id, owner, c, amount, amount, amount))
  {
    hide Inv, BookOk, Position, Market.Ready, Exposable, CollateralBacked, Repositioned;
    InvBook(s, id);
    SplitIsBacked(s.books[id], owner, c, amount);
    RepositionedKeepsInv(s, id, owner, c, amount, amount, amount);
  }

  lemma BookBacked(b: Book, c: nat)
    requires BookOk(b) && c < COLLATERALS
    ensures CollateralBacked(b.market, b.ledgers, b.tokens, NO_AMOUNTS, c) && b.ledgers.backing[c] >= 0
    ensures b.market.Payouts().Some? ==> ValidPayout(b.market.payouts.0, b.market.payouts.1)
  {
    hide Balanced, OrdersOk, TermsOk, LegsOk;
  }

  /** What claims are worth to their holder: complete sets their number in every outcome, other
      claims their exact payout once the outcome is known. */
  predicate Worth(m: Market, yes: nat, no: nat, paid: nat) {
    || yes == no == paid
    || match m.Payouts()
       case None => false
       case Some(p) => ValidPayout(p.0, p.1) && Denominator(p.0, p.1) * paid == Weighted(yes, no, p.0, p.1)
  }

  /** Backing pays what outstanding claims are worth, and still backs the rest. */
  lemma WorthIsBacked(b: Book, r: Book, c: nat, yes: nat, no: nat, paid: nat)
    requires c < COLLATERALS && CollateralBacked(b.market, b.ledgers, b.tokens, NO_AMOUNTS, c)
    requires yes <= b.tokens[Claim(c, 0)].supply && no <= b.tokens[Claim(c, 1)].supply && Worth(b.market, yes, no, paid)
    requires r.market == b.market && r.ledgers.backing[c] == b.ledgers.backing[c] - paid
    requires r.tokens[Claim(c, 0)].supply == b.tokens[Claim(c, 0)].supply - yes
    requires r.tokens[Claim(c, 1)].supply == b.tokens[Claim(c, 1)].supply - no
    ensures b.ledgers.backing[c] >= paid
    ensures CollateralBacked(r.market, r.ledgers, r.tokens, NO_AMOUNTS, c)
  {
    hide Market.Payouts;
  }

  lemma TakingKeepsInv(s: Chain, id: Pubkey, owner: Pubkey, c: nat, yes: u64, no: u64, paid: nat)
    requires Inv(s) && Positioned(s, id, owner, c) && Holds(s.books[id], owner, c, yes, no)
    requires Worth(s.books[id].market, yes, no, paid)
    ensures s.books[id].ledgers.backing[c] >= paid
    ensures Inv(Repositioned(s, id, owner, c, -(yes as int), -(no as int), -(paid as int)))
  {
    hide Inv, BookOk, Position, Market.Ready, CollateralBacked, Worth;
    InvBook(s, id);
    CreditsNonNegative(s, CreditKey(s.books[id].market.mints[c], owner));
    TakingIsBacked(s.books[id], owner, c, yes, no, paid);
    RepositionedKeepsInv(s, id, owner, c, -(yes as int), -(no as int), -(paid as int));
  }

  lemma TakingIsBacked(b: Book, owner: Pubkey, c: nat, yes: u64, no: u64, paid: nat)
    requires BookOk(b) && owner in b.wallets && c < COLLATERALS && Holds(b, owner, c, yes, no)
             && Worth(b.market, yes, no, paid)
    ensures b.ledgers.backing[c] >= paid
    ensures b.tokens[Claim(c, 0)].supply <= U64_MAX && b.tokens[Claim(c, 1)].supply <= U64_MAX
    ensures var r := Position(b, owner, c, -(yes as int), -(no as int), -(paid as int));
            CollateralBacked(r.market, r.ledgers, r.tokens, NO_AMOUNTS, c)
  {
    hide BookOk, Position, CollateralBacked, Worth;
    var y, n, p := -(yes as int), -(no as int), -(paid as int);
    PositionAt(b, owner, c, y, n, p);
    BookBacked(b, c);
    HeldClaims(b, owner, Claim(c, 0));
    HeldClaims(b, owner, Claim(c, 1));
    WorthIsBacked(b, Position(b, owner, c, y, n, p), c, yes, no, paid);
  }

  lemma CreditsNonNegative(s: Chain, key: CreditKey)
    requires Inv(s) && key in s.credits
    ensures s.credits[key] >= 0
  {
    hide BooksOk, PoolsBalanced;
  }

  /** Merging complete sets never runs out of backing, in whatever state the market is. */
  lemma MergeKeepsInv(s: Chain, id: Pubkey, owner: Pubkey, c: nat, amount: u64)
    requires Inv(s) && CanMerge(s, id, owner, c, amount)
    ensures s.books[id].ledgers.backing[c] >= amount
    ensures Inv(Repositioned(s, id, owner, c, -(amount as int), -(amount as int), -(amount as int)))
  {
    hide Inv, Positioned, Repositioned, Holds;
    TakingKeepsInv(s, id, owner, c, amount, amount, amount);
  }

  /** A known outcome pays every redeemable claim: backing never runs out. */
  lemma RedeemKeepsInv(s: Chain, id: Pubkey, owner: Pubkey, c: nat, yes: u64, no: u64)
    requires Inv(s) && CanRedeem(s, id, owner, c, yes, no)
    ensures var paid := Payment(s.books[id].market, yes, no).value;
            && s.books[id].ledgers.backing[c] >= paid
            && Inv(Repositioned(s, id, owner, c, -(yes as int), -(no as int), -(paid as int)))
  {
    hide Inv, Repositioned, Holds, Redemption, Weighted;
    TakingKeepsInv(s, id, owner, c, yes, no, Payment(s.books[id].market, yes, no).value);
  }
}
