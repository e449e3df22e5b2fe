/** Books while an instruction works on them: pool credit hydrated into wallets, orders
    opened and released, claim tokens still owed to the mints. */
module InFlight {
  import opened Exact
  import opened Rules
  import opened Sums
  import opened State
  import opened Settlement

  predicate Distinct<T(==)>(s: seq<T>) {
    forall i, j | 0 <= i < j < |s| :: s[i] != s[j]
  }

  /** A pool credit account presented for one owner in one collateral's pool. */
  datatype Frame = Frame(owner: Pubkey, collateral: nat)

  /** Pool credit sits in a wallet only where a frame will take it back. */
  ghost predicate Framed(b: Book, frames: seq<Frame>) {
    forall o, c | o in b.wallets && 0 <= c < COLLATERALS && b.wallets[o].balances[Underlying(c)] != 0 ::
      Frame(o, c) in frames
  }

  /** Books during an instruction, with the claim tokens it still owes the mints. */
  datatype Flight = Flight(book: Book, minted: Amounts)

  /** Books an instruction may hold between its steps. */
  ghost predicate Steady(f: Flight) {
    Core(f.book) && Backed(f.book, f.minted) && Bounded(f.book) && f.book.market.Payouts().None?
  }

  // ------------------------------------------------------- opening and releasing

  function OpenedOrder(t: OrderTerms, sequence: int, reserved: nat, notional: nat): Order {
    Order(t, t.quantity, 0, reserved, notional, sequence, 0, LIVE)
  }

  /** A new order takes the next sequence of its branch and moves its reservation out of the
      owner's available credit. */
  ghost function Reserve(b: Book, owner: Pubkey, t: OrderTerms, reserved: nat, notional: nat): (r: Book)
    requires owner in b.wallets && OrderKey(owner, t.salt) !in b.orders && t.Asset() < ASSETS
    requires t.branch < 2 && b.market.sequence[t.branch] < U64_MAX
    ensures r.wallets.Keys == b.wallets.Keys && r.tokens == b.tokens
    ensures r.market == b.market.(sequence := b.market.sequence[t.branch := b.market.sequence[t.branch] + 1])
    ensures r.orders == b.orders[OrderKey(owner, t.salt) :=
                                   OpenedOrder(t, b.market.sequence[t.branch], reserved, notional)]
  {
    var sequence := b.market.sequence[t.branch];
    var next := b.(market := b.market.(sequence := b.market.sequence[t.branch := sequence + 1]));
    SetOrder(Post(next, owner, t.Asset(), -(reserved as int)), OrderKey(owner, t.salt),
             OpenedOrder(t, sequence, reserved, notional))
  }

  function ClosedOrder(o: Order): Order {
    o.(remaining := 0, reserved := 0, openNotional := 0, status := CANCELLED)
  }

  /** A released order's whole reservation returns to its owner's available credit. */
  ghost function Release(b: Book, key: OrderKey): (r: Book)
    requires key in b.orders && key.owner in b.wallets && b.orders[key].terms.Asset() < ASSETS
    ensures r.wallets.Keys == b.wallets.Keys && r.market == b.market && r.tokens == b.tokens
    ensures r.orders == b.orders[key := ClosedOrder(b.orders[key])]
  {
    var o := b.orders[key];
    SetOrder(Post(b, key.owner, o.terms.Asset(), o.reserved), key, ClosedOrder(o))
  }

  lemma SequenceKeepsBalance(b: Book, branch: nat, n: u64)
    requires Balanced(b) && branch < 2
    ensures Balanced(b.(market := b.market.(sequence := b.market.sequence[branch := n])))
  {
  }

  lemma ReserveKeepsBalance(b: Book, owner: Pubkey, t: OrderTerms, reserved: nat, notional: nat)
    requires Balanced(b) && owner in b.wallets && OrderKey(owner, t.salt) !in b.orders
    requires t.Asset() < ASSETS && t.branch < 2 && b.market.sequence[t.branch] < U64_MAX
    ensures Balanced(Reserve(b, owner, t, reserved, notional))
  {
    hide Balanced, Post, SetOrder;
    var sequence := b.market.sequence[t.branch];
    SequenceKeepsBalance(b, t.branch, sequence + 1);
    var next := b.(market := b.market.(sequence := b.market.sequence[t.branch := sequence + 1]));
    PostKeepsBalance(next, owner, t.Asset(), -(reserved as int));
    SetOrderKeepsBalance(Post(next, owner, t.Asset(), -(reserved as int)), OrderKey(owner, t.salt),
                         OpenedOrder(t, sequence, reserved, notional));
  }

  /** Opening an order rearranges what its owner is owed; no liability changes. */
  lemma ReserveKeeps(f: Flight, owner: Pubkey, t: OrderTerms, reserved: nat, notional: nat)
    requires Steady(f) && owner in f.book.wallets && OrderKey(owner, t.salt) !in f.book.orders
    requires OrderTermsOk(f.book.market, t) && t.Asset() < ASSETS
    requires t.branch < 2 && f.book.market.sequence[t.branch] < U64_MAX
    requires notional == Ceil(t.quantity, t.price) && (t.side == 0 ==> reserved == notional)
    requires f.book.wallets[owner].balances[t.Asset()] >= reserved
    ensures var g := Flight(Reserve(f.book, owner, t, reserved, notional), f.minted);
            && Steady(g) && g.book.tokens == f.book.tokens
            && forall a | 0 <= a < ASSETS :: g.book.ledgers.Liability(a) == f.book.ledgers.Liability(a)
    ensures forall frames | Framed(f.book, frames) :: Framed(Reserve(f.book, owner, t, reserved, notional), frames)
  {
    hide Balanced, OrdersOk, Reserve, Ceil, OrderTermsOk, OrderTerms.Asset, Caps.Validate, Ledgers.Liability;
    var b := f.book;
    var r := Reserve(b, owner, t, reserved, notional);
    ReserveKeepsBalance(b, owner, t, reserved, notional);
    ReserveKeepsOrders(b, owner, t, reserved, notional);
    ReserveMoves(b, owner, t, reserved, notional);
    StillBacked(b, r, f.minted);
  }

  /** Backing and coverage depend on liabilities, backing, tokens and the outcome alone. */
  lemma StillBacked(b: Book, r: Book, minted: Amounts)
    requires Backed(b, minted) && r.tokens == b.tokens && r.ledgers.backing == b.ledgers.backing
    requires r.market.Payouts() == b.market.Payouts()
    requires forall a | 0 <= a < ASSETS && IsClaim(a) :: r.ledgers.Liability(a) == b.ledgers.Liability(a)
    ensures Backed(r, minted)
  {
    hide Ledgers.Liability, Market.Payouts;
    forall c | 0 <= c < COLLATERALS
      ensures CollateralBacked(r.market, r.ledgers, r.tokens, minted, c)
    {
      assert CollateralBacked(b.market, b.ledgers, b.tokens, minted, c);
    }
    forall a | 0 <= a < ASSETS && IsClaim(a)
      ensures ClaimCovered(r.ledgers, r.tokens, minted, a)
    {
      assert ClaimCovered(b.ledgers, b.tokens, minted, a);
    }
  }

  lemma ReserveMoves(b: Book, owner: Pubkey, t: OrderTerms, reserved: nat, notional: nat)
    requires owner in b.wallets && OrderKey(owner, t.salt) !in b.orders && t.Asset() < ASSETS
    requires t.branch < 2 && b.market.sequence[t.branch] < U64_MAX
    ensures var r := Reserve(b, owner, t, reserved, notional);
            && (forall a | 0 <= a < ASSETS :: r.ledgers.Liability(a) == b.ledgers.Liability(a))
            && r.ledgers.backing == b.ledgers.backing && r.ledgers.fees == b.ledgers.fees
            && forall o, a | o in b.wallets && 0 <= a < ASSETS ::
                 r.wallets[o].balances[a] ==
                 b.wallets[o].balances[a] - (if o == owner && a == t.Asset() then reserved else 0)
  {
    hide OrderTerms.Asset;
  }

  lemma ReserveKeepsOrders(b: Book, owner: Pubkey, t: OrderTerms, reserved: nat, notional: nat)
    requires Core(b) && owner in b.wallets && OrderKey(owner, t.salt) !in b.orders
    requires OrderTermsOk(b.market, t) && t.Asset() < ASSETS
    requires t.branch < 2 && b.market.sequence[t.branch] < U64_MAX
    requires notional == Ceil(t.quantity, t.price) && (t.side == 0 ==> reserved == notional)
    ensures OrdersOk(Reserve(b, owner, t, reserved, notional))
  {
    hide Reserve, Ceil, Balanced, NonNegative, Caps.Validate;
    var r := Reserve(b, owner, t, reserved, notional);
    forall k | k in r.orders
      ensures OrderOk(r.market, k, r.orders[k])
    {
      if k != OrderKey(owner, t.salt) {
        assert OrderOk(b.market, k, b.orders[k]);
      }
    }
  }

  lemma ReleaseKeepsBalance(b: Book, key: OrderKey)
    requires Balanced(b) && key in b.orders
    ensures key.owner in b.wallets && b.orders[key].terms.Asset() < ASSETS
    ensures Balanced(Release(b, key))
  {
    var o := b.orders[key];
    PostKeepsBalance(b, key.owner, o.terms.Asset(), o.reserved);
    SetOrderKeepsBalance(Post(b, key.owner, o.terms.Asset(), o.reserved), key, ClosedOrder(o));
  }

  lemma ReleaseMoves(b: Book, key: OrderKey)
    requires key in b.orders && key.owner in b.wallets && b.orders[key].terms.Asset() < ASSETS
    ensures var r := Release(b, key);
            && (forall a | 0 <= a < ASSETS :: r.ledgers.Liability(a) == b.ledgers.Liability(a))
            && r.ledgers.backing == b.ledgers.backing && r.ledgers.fees == b.ledgers.fees
            && forall o, a | o in b.wallets && 0 <= a < ASSETS ::
                 r.wallets[o].balances[a] ==
                 b.wallets[o].balances[a]
                 + (if o == key.owner && a == b.orders[key].terms.Asset() then b.orders[key].reserved else 0)
  {
    hide OrderTerms.Asset;
  }

  /** Releasing a live order rearranges what its owner is owed; no liability changes. */
  lemma ReleaseKeeps(f: Flight, key: OrderKey)
    requires Core(f.book) && Backed(f.book, f.minted) && Bounded(f.book)
    requires key in f.book.orders && f.book.orders[key].status == LIVE
    ensures key.owner in f.book.wallets && f.book.orders[key].terms.Asset() < ASSETS
    ensures var r := Release(f.book, key);
            && Core(r) && Backed(r, f.minted) && Bounded(r)
            && forall a | 0 <= a < ASSETS :: r.ledgers.Liability(a) == f.book.ledgers.Liability(a)
    ensures forall frames | Framed(f.book, frames) &&
                            (f.book.orders[key].terms.funding == 0 && f.book.orders[key].reserved != 0 ==>
                               Frame(key.owner, f.book.orders[key].terms.Collateral()) in frames) ::
              Framed(Release(f.book, key), frames)
  {
    hide Balanced, OrdersOk, Release, Ceil, OrderTerms.Asset, OrderTerms.Collateral, Caps.Validate, Ledgers.Liability,
      Market.Payouts;
    var b := f.book;
    ReleaseKeepsBalance(b, key);
    ReleaseMoves(b, key);
    ReleaseKeepsOrders(b, key);
    LiveOrder(b, key);
    StillBacked(b, Release(b, key), f.minted);
    var o := b.orders[key];
    forall c | 0 <= c < COLLATERALS
      ensures o.terms.Asset() == Underlying(c) ==> o.terms.funding == 0 && c == o.terms.Collateral()
    {
      FundedAsset(o.terms, Underlying(c));
    }
  }

  lemma LiveOrder(b: Book, key: OrderKey)
    requires Core(b) && key in b.orders && b.orders[key].status == LIVE
    ensures var o := b.orders[key];
            0 <= o.reserved && o.terms.Collateral() < COLLATERALS && o.terms.branch < 2 && o.terms.Asset() < ASSETS
  {
    hide Ceil, Caps.Validate, Caps.ValidateOrder;
    assert OrderOk(b.market, key, b.orders[key]);
  }

  lemma ReleaseKeepsOrders(b: Book, key: OrderKey)
    requires Core(b) && key in b.orders && key.owner in b.wallets && b.orders[key].terms.Asset() < ASSETS
    requires b.orders[key].status == LIVE
    ensures OrdersOk(Release(b, key))
  {
    hide Release, Ceil, Balanced, NonNegative, Caps.Validate, Caps.ValidateOrder;
    assert OrderOk(b.market, key, b.orders[key]);
  }

  // --------------------------------------------------------------- minting

  /** The tokens owed are minted into claim custody. */
  ghost function MintAll(b: Book, minted: Amounts): (r: Book)
  {
    b.(tokens := seq(ASSETS, a requires 0 <= a < ASSETS =>
                               ClaimTokens(b.tokens[a].supply + minted[a], b.tokens[a].vault + minted[a])))
  }

  /** Minting what is owed settles the debt, and no mint can overflow: while the outcome is
      open, supply is at most the backing, which is at most a 64-bit pool liability. */
  lemma MintKeeps(f: Flight)
    requires Steady(f)
    ensures Steady(Flight(MintAll(f.book, f.minted), NO_AMOUNTS))
  {
    hide Balanced, OrdersOk, Caps.Validate, NonNegative, CollateralBacked, ClaimCovered, Ledgers.Liability,
      Market.Payouts;
    var r := MintAll(f.book, f.minted);
    MintKeepsBalance(f.book, f.minted);
    forall c | 0 <= c < COLLATERALS
      ensures CollateralBacked(r.market, r.ledgers, r.tokens, NO_AMOUNTS, c)
      ensures ClaimCovered(r.ledgers, r.tokens, NO_AMOUNTS, Claim(c, 0))
      ensures ClaimCovered(r.ledgers, r.tokens, NO_AMOUNTS, Claim(c, 1))
    {
      BackingFits(f.book, c);
      MintCollateral(f.book, f.minted, c);
    }
    forall a | 0 <= a < ASSETS && IsClaim(a)
      ensures ClaimCovered(r.ledgers, r.tokens, NO_AMOUNTS, a)
    {
      assert a == Claim(CollateralOf(a), 0) || a == Claim(CollateralOf(a), 1);
    }
  }

  lemma MintKeepsBalance(b: Book, minted: Amounts)
    requires Core(b)
    ensures Core(MintAll(b, minted))
  {
    hide Caps.Validate, Ceil, OrderOk;
  }

  /** A collateral's backing is part of its liability. */
  lemma BackingFits(b: Book, c: nat)
    requires Core(b) && Bounded(b) && c < COLLATERALS
    ensures 0 <= b.ledgers.backing[c] <= U64_MAX
  {
    hide Caps.Validate, Ceil;
    LedgersNonNegative(b, Underlying(c));
    assert b.ledgers.Liability(Underlying(c)) <= U64_MAX;
  }

  lemma LedgersNonNegative(b: Book, a: nat)
    requires Core(b) && a < ASSETS
    ensures b.ledgers.credits[a] >= 0 && b.ledgers.escrow[a] >= 0
  {
    hide Caps.Validate, Caps.ValidateOrder, Ceil;
    SumNonNegative(b.wallets, BalanceOf(a));
    forall k | k in b.orders
      ensures ReservedIn(a)(k, b.orders[k]) >= 0
    {
      assert OrderOk(b.market, k, b.orders[k]);
    }
    SumNonNegative(b.orders, ReservedIn(a));
  }

  lemma MintCollateral(b: Book, minted: Amounts, c: nat)
    requires Backed(b, minted) && b.market.Payouts().None? && c < COLLATERALS && b.ledgers.backing[c] <= U64_MAX
    ensures var r := MintAll(b, minted);
            && CollateralBacked(r.market, r.ledgers, r.tokens, NO_AMOUNTS, c)
            && ClaimCovered(r.ledgers, r.tokens, NO_AMOUNTS, Claim(c, 0))
            && ClaimCovered(r.ledgers, r.tokens, NO_AMOUNTS, Claim(c, 1))
  {
    hide Ledgers.Liability, Market.Payouts;
    assert CollateralBacked(b.market, b.ledgers, b.tokens, minted, c);
    assert ClaimCovered(b.ledgers, b.tokens, minted, Claim(c, 0));
    assert ClaimCovered(b.ledgers, b.tokens, minted, Claim(c, 1));
  }

  // ------------------------------------------------- hydrating and flushing credit

  ghost predicate FramesIn(b: Book, frames: seq<Frame>) {
    forall f | f in frames :: f.owner in b.wallets && f.collateral < COLLATERALS
  }

  /** No wallet image keeps pool credit: it lives in the owners' pool credit accounts. */
  ghost predicate Drained(b: Book) {
    forall o, c | o in b.wallets && 0 <= c < COLLATERALS :: b.wallets[o].balances[Underlying(c)] == 0
  }

  /** The first n frames' available credit enters their owners' wallets. */
  ghost function HydrateAll(b: Book, frames: seq<Frame>, available: seq<int>, n: nat): (r: Book)
    requires n <= |frames| == |available| && FramesIn(b, frames)
    ensures r.wallets.Keys == b.wallets.Keys && r.orders == b.orders
    ensures r.market == b.market && r.tokens == b.tokens
    ensures r.ledgers.backing == b.ledgers.backing && r.ledgers.fees == b.ledgers.fees
  {
    if n == 0 then b else
    assert frames[n - 1] in frames;
    Post(HydrateAll(b, frames, available, n - 1), frames[n - 1].owner, Underlying(frames[n - 1].collateral),
         available[n - 1])
  }

  /** One frame takes back whatever pool credit its owner's wallet holds. */
  ghost function Drain(b: Book, f: Frame): (r: Book)
    requires f.owner in b.wallets && f.collateral < COLLATERALS
    ensures r.wallets.Keys == b.wallets.Keys && r.orders == b.orders
    ensures r.market == b.market && r.tokens == b.tokens
    ensures r.ledgers.backing == b.ledgers.backing && r.ledgers.fees == b.ledgers.fees
  {
    Post(b, f.owner, Underlying(f.collateral), -b.wallets[f.owner].balances[Underlying(f.collateral)])
  }

  ghost function FlushAll(b: Book, frames: seq<Frame>, n: nat): (r: Book)
    requires n <= |frames| && FramesIn(b, frames)
    ensures r.wallets.Keys == b.wallets.Keys && r.orders == b.orders
    ensures r.market == b.market && r.tokens == b.tokens
    ensures r.ledgers.backing == b.ledgers.backing && r.ledgers.fees == b.ledgers.fees
  {
    if n == 0 then b else
    assert frames[n - 1] in frames;
    Drain(FlushAll(b, frames, n - 1), frames[n - 1])
  }

  /** What frame i takes back when the frames before it have. */
  ghost function Flushed(b: Book, frames: seq<Frame>, i: nat): int
    requires i < |frames| && FramesIn(b, frames)
  {
    assert frames[i] in frames;
    FlushAll(b, frames, i).wallets[frames[i].owner].balances[Underlying(frames[i].collateral)]
  }

  lemma {:induction false} HydrateKeeps(b: Book, frames: seq<Frame>, available: seq<int>, n: nat)
    requires n <= |frames| == |available| && FramesIn(b, frames) && Core(b) && Drained(b)
    requires forall x | x in available :: x >= 0
    ensures var r := HydrateAll(b, frames, available, n);
            && Core(r) && Framed(r, frames)
            && forall a | 0 <= a < ASSETS && IsClaim(a) :: r.ledgers.Liability(a) == b.ledgers.Liability(a)
  {
    hide Core, Post, Ledgers.Liability, Framed;
    if n == 0 {
      DrainedIsFramed(b, frames);
    } else {
      HydrateKeeps(b, frames, available, n - 1);
      assert frames[n - 1] in frames && available[n - 1] in available;
      AddKeepsCore(HydrateAll(b, frames, available, n - 1), frames, frames[n - 1], available[n - 1]);
    }
  }

  lemma DrainedIsFramed(b: Book, frames: seq<Frame>)
    requires Drained(b)
    ensures Framed(b, frames)
  {
  }

  lemma AddKeepsCore(b: Book, frames: seq<Frame>, f: Frame, amount: int)
    requires Core(b) && Framed(b, frames) && f in frames && f.owner in b.wallets && f.collateral < COLLATERALS
    requires amount >= 0
    ensures var r := Post(b, f.owner, Underlying(f.collateral), amount);
            && Core(r) && Framed(r, frames)
            && forall a | 0 <= a < ASSETS && IsClaim(a) :: r.ledgers.Liability(a) == b.ledgers.Liability(a)
  {
    hide Balanced, OrderOk, Caps.Validate;
    PostKeepsBalance(b, f.owner, Underlying(f.collateral), amount);
  }

  lemma DrainKeepsCore(b: Book, f: Frame)
    requires Core(b) && f.owner in b.wallets && f.collateral < COLLATERALS
    ensures var r := Drain(b, f);
            && Core(r)
            && (forall a | 0 <= a < ASSETS && IsClaim(a) :: r.ledgers.Liability(a) == b.ledgers.Liability(a))
            && (forall o, a | o in b.wallets && 0 <= a < ASSETS ::
                  r.wallets[o].balances[a] ==
                  if o == f.owner && a == Underlying(f.collateral) then 0 else b.wallets[o].balances[a])
  {
    hide Balanced, OrderOk, Caps.Validate;
    PostKeepsBalance(b, f.owner, Underlying(f.collateral), -b.wallets[f.owner].balances[Underlying(f.collateral)]);
  }

  lemma {:induction false} FlushKeeps(b: Book, frames: seq<Frame>, n: nat)
    requires n <= |frames| && FramesIn(b, frames) && Core(b)
    ensures var r := FlushAll(b, frames, n);
            && Core(r)
            && (forall a | 0 <= a < ASSETS && IsClaim(a) :: r.ledgers.Liability(a) == b.ledgers.Liability(a))
            && (forall o, a | o in b.wallets && 0 <= a < ASSETS ::
                  r.wallets[o].balances[a] ==
                  if exists i | 0 <= i < n :: frames[i].owner == o && a == Underlying(frames[i].collateral)
                  then 0 else b.wallets[o].balances[a])
  {
    hide Core, Ledgers.Liability, Drain;
    if n > 0 {
      FlushKeeps(b, frames, n - 1);
      assert frames[n - 1] in frames;
      DrainKeepsCore(FlushAll(b, frames, n - 1), frames[n - 1]);
    }
  }

  /** Flushing every frame leaves no pool credit in any wallet. */
  lemma FlushDrains(b: Book, frames: seq<Frame>)
    requires FramesIn(b, frames) && Core(b) && Framed(b, frames)
    ensures Drained(FlushAll(b, frames, |frames|))
  {
    hide Core, Ledgers.Liability, FlushAll;
    FlushKeeps(b, frames, |frames|);
    var r := FlushAll(b, frames, |frames|);
    forall o, c | o in r.wallets && 0 <= c < COLLATERALS
      ensures r.wallets[o].balances[Underlying(c)] == 0
    {
      if b.wallets[o].balances[Underlying(c)] != 0 {
        var i :| 0 <= i < |frames| && frames[i] == Frame(o, c);
      }
    }
  }

  /** Without pool credit in the wallets the market counts none. */
  lemma DrainedMarket(b: Book, c: nat)
    requires Balanced(b) && Drained(b) && c < COLLATERALS
    ensures b.ledgers.credits[Underlying(c)] == 0
  {
    SumZero(b.wallets, BalanceOf(Underlying(c)));
  }
}
