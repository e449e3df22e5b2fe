/** The split, merge and redeem handlers: pool credit is hydrated, moved and flushed around one
    change of a position; every guard around it passes in sound books. */
module PositionHandler {
  import opened Exact
  import opened Rules
  import opened Sums
  import opened Conversion
  import opened State
  import opened Settlement
  import opened InFlight
  import opened Matching
  import opened Chain
  import opened Exchange
  import opened Placing
  import opened Positions
  import opened Pools
  import opened Fills
  import opened Guards
  import opened Session

  // ------------------------------------------------ the handlers' order of updates

  lemma PostTwice(b: Book, owner: Pubkey, asset: nat, x: int, y: int)
    requires owner in b.wallets && asset < ASSETS
    ensures Post(Post(b, owner, asset, x), owner, asset, y) == Post(b, owner, asset, x + y)
  {
    var w, c := b.wallets[owner], b.ledgers.credits;
    assert w.balances[asset := w.balances[asset] + x][asset := w.balances[asset] + x + y]
           == w.balances[asset := w.balances[asset] + (x + y)];
    assert c[asset := c[asset] + x][asset := c[asset] + x + y] == c[asset := c[asset] + (x + y)];
  }

  lemma PostNothing(b: Book, owner: Pubkey, asset: nat)
    requires owner in b.wallets && asset < ASSETS
    ensures Post(b, owner, asset, 0) == b
  {
    assert b.ledgers.credits[asset := b.ledgers.credits[asset]] == b.ledgers.credits;
    var w := b.wallets[owner];
    assert w.balances[asset := w.balances[asset]] == w.balances;
    assert b.wallets[owner := w] == b.wallets;
  }

  lemma PostsSwap(b: Book, owner: Pubkey, asset: nat, x: int, other: nat, y: int)
    requires owner in b.wallets && asset < ASSETS && other < ASSETS && asset != other
    ensures Post(Post(b, owner, asset, x), owner, other, y) == Post(Post(b, owner, other, y), owner, asset, x)
  {
    var w := b.wallets[owner];
    assert w.balances[asset := w.balances[asset] + x][other := w.balances[other] + y]
        == w.balances[other := w.balances[other] + y][asset := w.balances[asset] + x];
    var c := b.ledgers.credits;
    assert c[asset := c[asset] + x][other := c[other] + y] == c[other := c[other] + y][asset := c[asset] + x];
  }

  lemma TokensSwap(b: Book, owner: Pubkey, asset: nat, x: int, c: nat, backing: int, yes: int, no: int)
    requires owner in b.wallets && asset < ASSETS && c < COLLATERALS
    ensures Retoken(AddBacking(Post(b, owner, asset, x), c, backing), c, yes, no)
         == Post(Retoken(AddBacking(b, c, backing), c, yes, no), owner, asset, x)
    ensures AddBacking(Retoken(b, c, yes, no), c, backing) == Retoken(AddBacking(b, c, backing), c, yes, no)
  {
  }

  /** A position changed while pool credit is hydrated is the same change beside that credit. */
  lemma PositionBeside(b: Book, owner: Pubkey, c: nat, yes: int, no: int, backing: int, x: int)
    requires c < COLLATERALS && owner in b.wallets
    ensures Position(Post(b, owner, Underlying(c), x), owner, c, yes, no, backing)
         == Post(Position(b, owner, c, yes, no, backing), owner, Underlying(c), x)
  {
    hide Post, Retoken, AddBacking;
    TokensSwap(b, owner, Underlying(c), x, c, backing, yes, no);
    var t := Retoken(AddBacking(b, c, backing), c, yes, no);
    BackingWallets(b, c, backing);
    PostsSwap(t, owner, Underlying(c), x, Claim(c, 0), yes);
    PostsSwap(Post(t, owner, Claim(c, 0), yes), owner, Underlying(c), x, Claim(c, 1), no);
  }

  lemma BackingWallets(b: Book, c: nat, backing: int)
    requires c < COLLATERALS
    ensures AddBacking(b, c, backing).wallets == b.wallets
  {
  }

  /** The flush takes back exactly what the operation left of the credit. */
  lemma FlushCancels(b: Book, owner: Pubkey, c: nat, available: int)
    requires c < COLLATERALS && owner in b.wallets
    ensures Post(Post(b, owner, Underlying(c), available), owner, Underlying(c), -available) == b
  {
    hide Post;
    PostTwice(b, owner, Underlying(c), available, -available);
    PostNothing(b, owner, Underlying(c));
  }

  // ------------------------------------------------------------- room and guards

  /** An owner's credit and what any one market owes in its mint are both within the pool. */
  lemma CreditAndLiability(s: Chain, id: Pubkey, owner: Pubkey, c: nat)
    requires Inv(s) && id in s.books && c < COLLATERALS && c <= s.books[id].market.bases
    requires CreditKey(s.books[id].market.mints[c], owner) in s.credits
    ensures var mint := s.books[id].market.mints[c];
            && mint in s.pools && s.credits[CreditKey(mint, owner)] >= 0
            && s.books[id].ledgers.Liability(Underlying(c)) >= 0
            && s.credits[CreditKey(mint, owner)] + s.books[id].ledgers.Liability(Underlying(c)) <= s.pools[mint].vault
               <= U64_MAX
  {
    hide Core, Backed, LegsOk, LifecycleOk, ExposureCapped, UnlistedEmpty, OnlyResting, Drained, Ledgers.Liability,
      Demand;
    var b := s.books[id];
    assert BookOk(b) && Anchored(s, b);
    var key := CreditKey(b.market.mints[c], owner);
    forall k | k in s.credits
      ensures CreditIn(key.mint)(k, s.credits[k]) >= 0
    {
    }
    SumAtLeast(s.credits, key, CreditIn(key.mint));
    PoolHolds(s, id, key.mint);
    ShareFits(b, key.mint, c);
  }

  /** Books and credit as a position handler finds them. */
  ghost predicate PositionRoom(b: Book, owner: Pubkey, c: nat, available: int, vault: int) {
    && owner in b.wallets && c < COLLATERALS && available >= 0
    && b.wallets[owner].balances[Underlying(c)] == 0 && b.ledgers.credits[Underlying(c)] == 0
    && available + b.ledgers.Liability(Underlying(c)) <= vault <= U64_MAX
    && 0 <= b.ledgers.backing[c] <= b.ledgers.Liability(Underlying(c))
    && (forall k | 0 <= k < 2 ::
          && 0 <= b.wallets[owner].balances[Claim(c, k)] <= b.ledgers.credits[Claim(c, k)]
          && b.ledgers.credits[Claim(c, k)] <= b.tokens[Claim(c, k)].vault <= b.tokens[Claim(c, k)].supply <= U64_MAX)
  }

  lemma PositionHasRoom(s: Chain, id: Pubkey, owner: Pubkey, c: nat)
    requires Inv(s) && Positioned(s, id, owner, c)
    ensures var mint := s.books[id].market.mints[c];
            && mint in s.pools
            && PositionRoom(s.books[id], owner, c, s.credits[CreditKey(mint, owner)], s.pools[mint].vault)
            && CheckCollateral(s.books[id], c, s.pools[mint].vault)
  {
    hide Inv, BookOk, Market.Ready, CheckCollateral, Ledgers.Liability, Core, LegsOk, PositionRoom;
    var b := s.books[id];
    InvBook(s, id);
    ReadyIsListed(b.market, c);
    CreditAndLiability(s, id, owner, c);
    BookRoom(b, owner, c, s.credits[CreditKey(b.market.mints[c], owner)], s.pools[b.market.mints[c]].vault);
  }

  lemma BookRoom(b: Book, owner: Pubkey, c: nat, available: int, vault: int)
    requires BookOk(b) && owner in b.wallets && c < COLLATERALS && available >= 0
    requires available + b.ledgers.Liability(Underlying(c)) <= vault <= U64_MAX
    ensures PositionRoom(b, owner, c, available, vault) && CheckCollateral(b, c, vault)
  {
    hide Balanced, OrdersOk, TermsOk, LegsOk, LifecycleOk, ExposureCapped, UnlistedEmpty, OnlyResting, CheckCollateral,
      Backed;
    DrainedMarket(b, c);
    LedgersNonNegative(b, Underlying(c));
    forall k | 0 <= k < 2
      ensures 0 <= b.wallets[owner].balances[Claim(c, k)] <= b.ledgers.credits[Claim(c, k)]
      ensures b.ledgers.credits[Claim(c, k)] <= b.tokens[Claim(c, k)].vault <= b.tokens[Claim(c, k)].supply <= U64_MAX
    {
      ClaimRoom(b, owner, Claim(c, k));
    }
    BookBacked(b, c);
    assert Backed(b, NO_AMOUNTS) by { BookIsBacked(b); }
    BackedPasses(b, c, vault);
  }

  lemma BookIsBacked(b: Book)
    requires BookOk(b)
    ensures Backed(b, NO_AMOUNTS)
  {
    hide Backed, Core;
  }

  lemma ClaimRoom(b: Book, owner: Pubkey, a: nat)
    requires BookOk(b) && owner in b.wallets && a < ASSETS && IsClaim(a)
    ensures 0 <= b.wallets[owner].balances[a] <= b.ledgers.credits[a] <= b.tokens[a].vault <= b.tokens[a].supply
            <= U64_MAX
  {
    hide Balanced, OrdersOk, TermsOk, LegsOk, LifecycleOk, ExposureCapped, UnlistedEmpty, OnlyResting,
      Ledgers.Liability, Drained;
    BalanceInCredits(b, owner, a);
    ClaimLiability(b, a);
    assert ClaimCovered(b.ledgers, b.tokens, NO_AMOUNTS, a);
  }

  /** The checks of a collateral see none of the pool credit a wallet holds but its vault bound. */
  lemma ChecksBeside(b: Book, owner: Pubkey, c: nat, x: int, vault: int)
    requires owner in b.wallets && c < COLLATERALS && CheckCollateral(b, c, vault)
    requires vault >= b.ledgers.Liability(Underlying(c)) + x
    ensures CheckCollateral(Post(b, owner, Underlying(c), x), c, vault)
  {
    hide Rules.ClaimBacking, Market.Payouts;
  }

  /** Splitting keeps the checks: both supplies, custody and backing grow alike. */
  lemma SplitChecks(b: Book, owner: Pubkey, c: nat, amount: nat, vault: int)
    requires owner in b.wallets && c < COLLATERALS && CheckCollateral(b, c, vault)
    requires b.tokens[Claim(c, 0)].supply + amount <= U64_MAX && b.tokens[Claim(c, 1)].supply + amount <= U64_MAX
    requires vault >= b.ledgers.Liability(Underlying(c)) + amount
    ensures CheckCollateral(Position(b, owner, c, amount, amount, amount), c, vault)
  {
    hide Rules.ClaimBacking, Market.Payouts, Ledgers.Liability;
    PositionMoves(b, owner, c, amount, amount, amount);
    BackingGrows(b.tokens[Claim(c, 0)].supply, b.tokens[Claim(c, 1)].supply, amount, b.market.Payouts());
  }

  lemma BackingGrows(yes: u64, no: u64, amount: nat, payouts: Rules.Option<(nat, nat)>)
    requires Rules.ClaimBacking(yes, no, payouts).Ok? && yes + amount <= U64_MAX && no + amount <= U64_MAX
    ensures Rules.ClaimBacking(yes + amount, no + amount, payouts).Ok?
    ensures Rules.ClaimBacking(yes + amount, no + amount, payouts).value
            == Rules.ClaimBacking(yes, no, payouts).value + amount
  {
  }

  /** Fields along the handlers' order of updates. */
  lemma HydratedFields(b: Book, owner: Pubkey, c: nat, available: int, vault: int)
    requires PositionRoom(b, owner, c, available, vault)
    ensures var h := Post(b, owner, Underlying(c), available);
            && h.wallets[owner].balances[Underlying(c)] == available == h.ledgers.credits[Underlying(c)]
            && h.ledgers.Liability(Underlying(c)) == b.ledgers.Liability(Underlying(c)) + available
            && (forall k | 0 <= k < 2 ::
                  && h.wallets[owner].balances[Claim(c, k)] == b.wallets[owner].balances[Claim(c, k)]
                  && h.ledgers.credits[Claim(c, k)] == b.ledgers.credits[Claim(c, k)])
  {
  }

  /** What an operation takes from pool credit its backing gains: no pool is owed more or less. */
  lemma PositionOwes(b: Book, owner: Pubkey, c: nat, yes: int, no: int, backing: int, x: int, y: int)
    requires c < COLLATERALS && owner in b.wallets && x == y + backing
    ensures Liabilities(Post(Position(b, owner, c, yes, no, backing), owner, Underlying(c), y))
         == Liabilities(Post(b, owner, Underlying(c), x))
  {
    hide Ledgers.Liability, Position, Post, Liabilities;
    var p := Position(b, owner, c, yes, no, backing);
    PositionMoves(b, owner, c, yes, no, backing);
    forall k | 0 <= k < COLLATERALS
      ensures Post(p, owner, Underlying(c), y).ledgers.Liability(Underlying(k))
           == Post(b, owner, Underlying(c), x).ledgers.Liability(Underlying(k))
    {
      PostMovesLiability(p, owner, Underlying(c), y, Underlying(k));
      PostMovesLiability(b, owner, Underlying(c), x, Underlying(k));
    }
    SameLiabilities(Post(b, owner, Underlying(c), x), Post(p, owner, Underlying(c), y));
  }

  /** A position changed around hydrated credit passes every check, conserves what the market owes
      each pool, and flushes the credit that is left. */
  lemma PositionFinishes(b: Book, owner: Pubkey, c: nat, yes: int, no: int, backing: int, available: int, vault: int)
    requires PositionRoom(b, owner, c, available, vault)
             && CheckCollateral(Position(b, owner, c, yes, no, backing), c, vault)
    requires available - backing >= 0
    ensures var n := Position(Post(b, owner, Underlying(c), available - backing), owner, c, yes, no, backing);
            && CheckCollateral(n, c, vault) && Liabilities(n) == Liabilities(Post(b, owner, Underlying(c), available))
            && n.wallets[owner].balances[Underlying(c)] == available - backing == n.ledgers.credits[Underlying(c)]
            && Post(n, owner, Underlying(c), -(available - backing)) == Position(b, owner, c, yes, no, backing)
  {
    hide CheckCollateral, Ledgers.Liability, Liabilities, Position, Post;
    var p := Position(b, owner, c, yes, no, backing);
    PositionBeside(b, owner, c, yes, no, backing, available - backing);
    FlushCancels(p, owner, c, available - backing);
    PositionMoves(b, owner, c, yes, no, backing);
    ChecksBeside(p, owner, c, available - backing, vault);
    PositionOwes(b, owner, c, yes, no, backing, available, available - backing);
    LeftFields(b, owner, c, yes, no, backing, available - backing);
  }

  lemma LeftFields(b: Book, owner: Pubkey, c: nat, yes: int, no: int, backing: int, left: int)
    requires owner in b.wallets && c < COLLATERALS
    requires b.wallets[owner].balances[Underlying(c)] == 0 && b.ledgers.credits[Underlying(c)] == 0
    ensures var n := Post(Position(b, owner, c, yes, no, backing), owner, Underlying(c), left);
            n.wallets[owner].balances[Underlying(c)] == left == n.ledgers.credits[Underlying(c)]
  {
  }

  lemma StageOwner(b: Book, owner: Pubkey, c: nat, available: int, vault: int)
    requires PositionRoom(b, owner, c, available, vault)
    ensures owner in b.wallets && c < COLLATERALS && available >= 0
    ensures forall x: Book, amount: int :: AddBacking(x, c, amount).wallets == x.wallets
  {
  }

  lemma SplitFinishes(b: Book, owner: Pubkey, c: nat, amount: nat, available: int, vault: int)
    requires PositionRoom(b, owner, c, available, vault) && CheckCollateral(b, c, vault) && amount <= available
    requires b.tokens[Claim(c, 0)].supply + amount <= U64_MAX && b.tokens[Claim(c, 1)].supply + amount <= U64_MAX
    ensures var n := Position(Post(b, owner, Underlying(c), available - amount), owner, c, amount, amount, amount);
            && CheckCollateral(n, c, vault) && Liabilities(n) == Liabilities(Post(b, owner, Underlying(c), available))
            && n.wallets[owner].balances[Underlying(c)] == available - amount == n.ledgers.credits[Underlying(c)]
            && Post(n, owner, Underlying(c), -(available - amount)) == Position(b, owner, c, amount, amount, amount)
            && CheckCollateral(Post(b, owner, Underlying(c), available), c, vault)
  {
    hide CheckCollateral, Ledgers.Liability, Liabilities, Position, Post;
    SplitChecks(b, owner, c, amount, vault);
    ChecksBeside(b, owner, c, available, vault);
    PositionFinishes(b, owner, c, amount, amount, amount, available, vault);
  }

  /** The credit loads, and the checks pass beside it. */
  lemma PositionLoads(b: Book, owner: Pubkey, c: nat, available: int, vault: int)
    requires PositionRoom(b, owner, c, available, vault) && CheckCollateral(b, c, vault)
    ensures owner in b.wallets && c < COLLATERALS && available >= 0
    ensures FrameRoom(b, Frame(owner, c), available)
    ensures CheckCollateral(Post(b, owner, Underlying(c), available), c, vault)
  {
    hide CheckCollateral;
    ChecksBeside(b, owner, c, available, vault);
  }

  /** The split's own order of updates fits and is that change. */
  lemma SplitStages(b: Book, owner: Pubkey, c: nat, amount: nat, available: int, vault: int)
    requires PositionRoom(b, owner, c, available, vault) && amount <= available
    requires b.tokens[Claim(c, 0)].supply + amount <= U64_MAX && b.tokens[Claim(c, 1)].supply + amount <= U64_MAX
    ensures var d := Post(Post(b, owner, Underlying(c), available), owner, Underlying(c), -(amount as int));
            var t := Retoken(AddBacking(d, c, amount), c, amount, amount);
            var y := Post(t, owner, Claim(c, 0), amount);
            && d.ledgers.backing[c] + amount <= U64_MAX
            && t.wallets[owner].balances[Claim(c, 0)] + amount <= U64_MAX
            && t.ledgers.credits[Claim(c, 0)] + amount <= U64_MAX
            && y.wallets[owner].balances[Claim(c, 1)] + amount <= U64_MAX
            && y.ledgers.credits[Claim(c, 1)] + amount <= U64_MAX
            && Post(y, owner, Claim(c, 1), amount)
               == Position(Post(b, owner, Underlying(c), available - amount), owner, c, amount, amount, amount)
  {
    hide Ledgers.Liability;
    assert 0 <= b.wallets[owner].balances[Claim(c, 0)] <= b.ledgers.credits[Claim(c, 0)]
           && b.ledgers.credits[Claim(c, 0)] <= b.tokens[Claim(c, 0)].vault <= b.tokens[Claim(c, 0)].supply;
    assert 0 <= b.wallets[owner].balances[Claim(c, 1)] <= b.ledgers.credits[Claim(c, 1)]
           && b.ledgers.credits[Claim(c, 1)] <= b.tokens[Claim(c, 1)].vault <= b.tokens[Claim(c, 1)].supply;
    PostTwice(b, owner, Underlying(c), available, -(amount as int));
  }

  /** Hydrates the credit, turns part of it into both claims, and flushes the rest. */
  method Split(session: Session, owner: Pubkey, c: nat, amount: u64, leg: LegLive, available: nat, vault: int)
    returns (o: Outcome, credit: nat)
    requires PositionRoom(session.Image(), owner, c, available, vault) && CheckCollateral(session.Image(), c, vault)
    modifies session
    ensures o.Done? <==>
              && amount > 0 && (c == QUOTE || Exposable(old(session.market), c, leg)) && available >= amount
              && old(session.tokens)[Claim(c, 0)].supply + amount <= U64_MAX
              && old(session.tokens)[Claim(c, 1)].supply + amount <= U64_MAX
    ensures o.Done? ==> session.Image() == Position(old(session.Image()), owner, c, amount, amount, amount)
                        && credit == available - amount
  {
    hide CheckCollateral, Exposable, Ledgers.Liability, Liabilities, Position, Post, PositionRoom, AddBacking, Retoken,
      FrameRoom;
    credit := 0;
    if amount == 0 { return Fail(ProtocolError.InvalidTerms), 0; }
    if !(c == QUOTE || Exposable(session.market, c, leg)) { return Fail(LegHalted), 0; }
    ghost var b := session.Image();
    PositionLoads(b, owner, c, available, vault);
    HydratedFields(b, owner, c, available, vault);
    session.Hydrate(Frame(owner, c), available);
    assert CheckCollateral(session.Image(), c, vault);
    o := session.Debit(owner, Underlying(c), amount);
    if o.Fail? { return; }
    var yes, no := session.tokens[Claim(c, 0)].supply, session.tokens[Claim(c, 1)].supply;
    if yes + amount > U64_MAX || no + amount > U64_MAX { return Fail(Arithmetic), 0; }
    SplitStages(b, owner, c, amount, available, vault);
    SplitFinishes(b, owner, c, amount, available, vault);
    credit := MintSplit(session, owner, c, amount, b, available, vault);
  }

  /** Backing grows, both claims are minted and credited, and the rest of the credit flushed. */
  method MintSplit(session: Session, owner: Pubkey, c: nat, amount: u64, ghost b: Book, ghost available: int,
                   vault: int)
    returns (credit: nat)
    requires PositionRoom(b, owner, c, available, vault) && CheckCollateral(b, c, vault) && amount <= available
    requires b.tokens[Claim(c, 0)].supply + amount <= U64_MAX && b.tokens[Claim(c, 1)].supply + amount <= U64_MAX
    requires session.Image() == Post(Post(b, owner, Underlying(c), available), owner, Underlying(c), -(amount as int))
    modifies session
    ensures session.Image() == Position(b, owner, c, amount, amount, amount) && credit == available - amount
  {
    hide CheckCollateral, Ledgers.Liability, Liabilities, Position, Post, PositionRoom, AddBacking, Retoken;
    SplitStages(b, owner, c, amount, available, vault);
    SplitFinishes(b, owner, c, amount, available, vault);
    StageOwner(b, owner, c, available, vault);
    var o := session.IncreaseBacking(c, amount);
    assert o.Done?;
    session.MoveTokens(c, amount, amount);
    o := session.Credit(owner, Claim(c, 0), amount);
    assert o.Done?;
    o := session.Credit(owner, Claim(c, 1), amount);
    assert o.Done?;
    assert CheckCollateral(session.Image(), c, vault);
    assert Liabilities(session.Image()) == Liabilities(Post(b, owner, Underlying(c), available));
    credit := session.Flush(Frame(owner, c));
  }

  // ------------------------------------------------------------ merging, redeeming

  /** What the owner's claims pay is in backing, and what stays outstanding remains backed. */
  ghost predicate TakeRoom(b: Book, owner: Pubkey, c: nat, yes: u64, no: u64, paid: nat, vault: int)
    requires owner in b.wallets && c < COLLATERALS
  {
    Holds(b, owner, c, yes, no) ==>
      && b.ledgers.backing[c] >= paid
      && CheckCollateral(Position(b, owner, c, -(yes as int), -(no as int), -(paid as int)), c, vault)
  }

  lemma TakeHasRoom(s: Chain, id: Pubkey, owner: Pubkey, c: nat, yes: u64, no: u64, paid: nat)
    requires Inv(s) && Positioned(s, id, owner, c) && Worth(s.books[id].market, yes, no, paid)
    ensures var mint := s.books[id].market.mints[c];
            mint in s.pools && TakeRoom(s.books[id], owner, c, yes, no, paid, s.pools[mint].vault)
  {
    hide Inv, BookOk, Market.Ready, CheckCollateral, Ledgers.Liability, Core, LegsOk, PositionRoom, Worth, Position,
      Repositioned;
    var b := s.books[id];
    PositionHasRoom(s, id, owner, c);
    if Holds(b, owner, c, yes, no) {
      TakingKeepsInv(s, id, owner, c, yes, no, paid);
      var y, n, p := -(yes as int), -(no as int), -(paid as int);
      RepositionedBook(s, id, owner, c, y, n, p);
      var after := Position(b, owner, c, y, n, p);
      BookIsBacked(after);
      BookBacked(after, c);
      VaultBounds(b, owner, c, s.credits[CreditKey(b.market.mints[c], owner)], s.pools[b.market.mints[c]].vault);
      PositionMoves(b, owner, c, y, n, p);
      BackedPasses(after, c, s.pools[b.market.mints[c]].vault);
    }
  }

  lemma RepositionedBook(s: Chain, id: Pubkey, owner: Pubkey, c: nat, yes: int, no: int, backing: int)
    requires Positioned(s, id, owner, c) && Inv(Repositioned(s, id, owner, c, yes, no, backing))
    ensures BookOk(Position(s.books[id], owner, c, yes, no, backing))
  {
    hide Inv, BookOk, Position;
    InvBook(Repositioned(s, id, owner, c, yes, no, backing), id);
  }

  lemma VaultBounds(b: Book, owner: Pubkey, c: nat, available: int, vault: int)
    requires PositionRoom(b, owner, c, available, vault)
    ensures vault >= b.ledgers.Liability(Underlying(c))
  {
    hide Ledgers.Liability;
  }

  /** Tokens and backing move as well after the three posts as before them. */
  lemma TokensLast(b: Book, owner: Pubkey, c: nat, yes: int, no: int, backing: int, available: int)
    requires owner in b.wallets && c < COLLATERALS
    ensures var n := Post(Post(Post(b, owner, Underlying(c), available), owner, Claim(c, 0), yes), owner, Claim(c, 1),
                          no);
            var r := Retoken(AddBacking(b, c, backing), c, yes, no);
            && AddBacking(Retoken(n, c, yes, no), c, backing)
               == Post(Post(Post(r, owner, Underlying(c), available), owner, Claim(c, 0), yes), owner, Claim(c, 1), no)
  {
    hide Post, AddBacking, Retoken;
    var h := Post(b, owner, Underlying(c), available);
    var y := Post(h, owner, Claim(c, 0), yes);
    TokensSwap(b, owner, Underlying(c), available, c, backing, yes, no);
    TokensSwap(h, owner, Claim(c, 0), yes, c, backing, yes, no);
    TokensSwap(y, owner, Claim(c, 1), no, c, backing, yes, no);
    TokensSwap(Post(y, owner, Claim(c, 1), no), owner, Claim(c, 0), 0, c, backing, yes, no);
    BackingWallets(b, c, backing);
  }

  lemma LastPost(r: Book, owner: Pubkey, c: nat, yes: int, no: int, available: int, paid: int)
    requires owner in r.wallets && c < COLLATERALS
    ensures Post(Post(Post(Post(r, owner, Underlying(c), available), owner, Claim(c, 0), yes), owner, Claim(c, 1), no),
                 owner, Underlying(c), paid)
         == Post(Post(Post(r, owner, Underlying(c), available + paid), owner, Claim(c, 0), yes), owner, Claim(c, 1), no)
  {
    hide Post;
    var rh := Post(r, owner, Underlying(c), available);
    PostsSwap(Post(rh, owner, Claim(c, 0), yes), owner, Claim(c, 1), no, Underlying(c), paid);
    PostsSwap(rh, owner, Claim(c, 0), yes, Underlying(c), paid);
    PostTwice(r, owner, Underlying(c), available, paid);
  }

  /** Credit loaded first and claims taken before backing, or the position changed in one go. */
  lemma TakeOrder(b: Book, owner: Pubkey, c: nat, yes: int, no: int, backing: int, available: int, paid: int)
    requires owner in b.wallets && c < COLLATERALS
    ensures var n := Post(Post(Post(b, owner, Underlying(c), available), owner, Claim(c, 0), yes), owner, Claim(c, 1),
                          no);
            var t := Retoken(AddBacking(Post(b, owner, Underlying(c), available + paid), c, backing), c, yes, no);
            && Post(AddBacking(Retoken(n, c, yes, no), c, backing), owner, Underlying(c), paid)
               == Post(Post(t, owner, Claim(c, 0), yes), owner, Claim(c, 1), no)
  {
    hide Post, AddBacking, Retoken;
    TokensLast(b, owner, c, yes, no, backing, available);
    TokensSwap(b, owner, Underlying(c), available + paid, c, backing, yes, no);
    BackingWallets(b, c, backing);
    LastPost(Retoken(AddBacking(b, c, backing), c, yes, no), owner, c, yes, no, available, paid);
  }

  /** Backing and credit have room for what the claims pay. */
  lemma TakeFits(b: Book, owner: Pubkey, c: nat, yes: int, no: int, paid: nat, available: int, vault: int)
    requires PositionRoom(b, owner, c, available, vault) && b.ledgers.backing[c] >= paid
    ensures var n := Post(Post(Post(b, owner, Underlying(c), available), owner, Claim(c, 0), yes), owner, Claim(c, 1),
                          no);
            var t := AddBacking(Retoken(n, c, yes, no), c, -(paid as int));
            && Retoken(n, c, yes, no).ledgers.backing[c] >= paid
            && t.wallets.Keys == b.wallets.Keys
            && t.wallets[owner].balances[Underlying(c)] + paid <= U64_MAX
            && t.ledgers.credits[Underlying(c)] + paid <= U64_MAX
  {
    hide Ledgers.Liability;
  }

  /** The handlers' own order of updates fits and is that change. */
  lemma TakeStages(b: Book, owner: Pubkey, c: nat, yes: u64, no: u64, paid: nat, available: int, vault: int)
    requires PositionRoom(b, owner, c, available, vault) && b.ledgers.backing[c] >= paid
    ensures var h := Post(b, owner, Underlying(c), available);
            var y := Post(h, owner, Claim(c, 0), -(yes as int));
            var n := Post(y, owner, Claim(c, 1), -(no as int));
            var t := AddBacking(Retoken(n, c, -(yes as int), -(no as int)), c, -(paid as int));
            && Retoken(n, c, -(yes as int), -(no as int)).ledgers.backing[c] >= paid
            && t.wallets.Keys == b.wallets.Keys
            && t.wallets[owner].balances[Underlying(c)] + paid <= U64_MAX
            && t.ledgers.credits[Underlying(c)] + paid <= U64_MAX
            && Post(t, owner, Underlying(c), paid)
               == Position(Post(b, owner, Underlying(c), available + paid), owner, c, -(yes as int), -(no as int),
                           -(paid as int))
  {
    hide Ledgers.Liability, Post, AddBacking, Retoken;
    TakeFits(b, owner, c, -(yes as int), -(no as int), paid, available, vault);
    TakeOrder(b, owner, c, -(yes as int), -(no as int), -(paid as int), available, paid);
  }

  lemma TakeFields(b: Book, owner: Pubkey, c: nat, yes: u64, available: int, vault: int)
    requires PositionRoom(b, owner, c, available, vault)
    ensures var y := Post(Post(b, owner, Underlying(c), available), owner, Claim(c, 0), -(yes as int));
            && y.wallets[owner].balances[Claim(c, 1)] == b.wallets[owner].balances[Claim(c, 1)]
            && y.ledgers.credits[Claim(c, 1)] == b.ledgers.credits[Claim(c, 1)]
    ensures b.wallets[owner].balances[Claim(c, 0)] <= b.ledgers.credits[Claim(c, 0)]
    ensures b.wallets[owner].balances[Claim(c, 1)] <= b.ledgers.credits[Claim(c, 1)]
  {
    hide Ledgers.Liability;
    assert b.wallets[owner].balances[Claim(c, 0)] <= b.ledgers.credits[Claim(c, 0)];
    assert b.wallets[owner].balances[Claim(c, 1)] <= b.ledgers.credits[Claim(c, 1)];
  }

  /** Hydrates the credit, gives up claims, and flushes the credit with what they pay. */
  method Take(session: Session, owner: Pubkey, c: nat, yes: u64, no: u64, paid: nat, available: nat, vault: int)
    returns (o: Outcome, credit: nat)
    requires PositionRoom(session.Image(), owner, c, available, vault) && CheckCollateral(session.Image(), c, vault)
    requires owner in session.wallets && c < COLLATERALS && TakeRoom(session.Image(), owner, c, yes, no, paid, vault)
    modifies session
    ensures o.Done? <==> Holds(old(session.Image()), owner, c, yes, no)
    ensures o.Done? ==>
            session.Image() == Position(old(session.Image()), owner, c, -(yes as int), -(no as int), -(paid as int))
            && credit == available + paid
  {
    hide CheckCollateral, Ledgers.Liability, Liabilities, Position, Post, PositionRoom, AddBacking, Retoken, FrameRoom;
    credit := 0;
    ghost var b := session.Image();
    PositionLoads(b, owner, c, available, vault);
    HydratedFields(b, owner, c, available, vault);
    TakeFields(b, owner, c, yes, available, vault);
    session.Hydrate(Frame(owner, c), available);
    assert CheckCollateral(session.Image(), c, vault);
    o := session.Debit(owner, Claim(c, 0), yes);
    if o.Fail? { return; }
    o := session.Debit(owner, Claim(c, 1), no);
    if o.Fail? { return; }
    credit := PayTaken(session, owner, c, yes, no, paid, b, available, vault);
  }

  /** Claims are burned and backing pays them into the owner's wallet: nothing here fails. */
  method PayClaims(session: Session, owner: Pubkey, c: nat, yes: u64, no: u64, paid: nat, ghost b: Book,
                   ghost available: int, vault: int)
    requires PositionRoom(b, owner, c, available, vault) && b.ledgers.backing[c] >= paid
    requires session.Image() == Post(Post(Post(b, owner, Underlying(c), available), owner, Claim(c, 0), -(yes as int)),
                                     owner, Claim(c, 1), -(no as int))
    modifies session
    ensures session.Image() == Position(Post(b, owner, Underlying(c), available + paid), owner, c, -(yes as int),
                                        -(no as int), -(paid as int))
  {
    hide CheckCollateral, Ledgers.Liability, Liabilities, Position, Post, PositionRoom, AddBacking, Retoken;
    StageOwner(b, owner, c, available, vault);
    TakeStages(b, owner, c, yes, no, paid, available, vault);
    session.MoveTokens(c, -(yes as int), -(no as int));
    var o := session.DecreaseBacking(c, paid);
    assert o.Done?;
    o := session.Credit(owner, Underlying(c), paid);
    assert o.Done?;
  }

  /** And the owner's credit is flushed with what the claims paid. */
  method PayTaken(session: Session, owner: Pubkey, c: nat, yes: u64, no: u64, paid: nat, ghost b: Book,
                  ghost available: int, vault: int)
    returns (credit: nat)
    requires PositionRoom(b, owner, c, available, vault) && b.ledgers.backing[c] >= paid
    requires CheckCollateral(Position(b, owner, c, -(yes as int), -(no as int), -(paid as int)), c, vault)
    requires session.Image() == Post(Post(Post(b, owner, Underlying(c), available), owner, Claim(c, 0), -(yes as int)),
                                     owner, Claim(c, 1), -(no as int))
    modifies session
    ensures session.Image() == Position(b, owner, c, -(yes as int), -(no as int), -(paid as int))
            && credit == available + paid
  {
    hide CheckCollateral, Ledgers.Liability, Liabilities, Position, Post, PositionRoom;
    StageOwner(b, owner, c, available, vault);
    PositionFinishes(b, owner, c, -(yes as int), -(no as int), -(paid as int), available, vault);
    PayClaims(session, owner, c, yes, no, paid, b, available, vault);
    assert CheckCollateral(session.Image(), c, vault);
    assert Liabilities(session.Image()) == Liabilities(Post(b, owner, Underlying(c), available));
    credit := session.Flush(Frame(owner, c));
  }
}
