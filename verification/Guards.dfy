/** The runtime guards of the handlers, and why none of them can fire in sound books. */
module Guards {
  import opened Exact
  import opened Rules
  import opened Sums
  import opened Conversion
  import opened State
  import opened Settlement
  import opened InFlight
  import opened Matching
  import opened Chain
  import opened Exchange
  import opened Placing
  import opened Completion
  import opened Releases
  import opened Fills

  // ----------------------------------------------------------------- the guards

  /** Fresh supply and custody of one claim. */
  datatype ClaimSnapshot = ClaimSnapshot(supply: int, balance: int)

  function Snapshot(b: Book, asset: nat): ClaimSnapshot
    requires asset < ASSETS
  {
    ClaimSnapshot(b.tokens[asset].supply, b.tokens[asset].vault)
  }

  /** Backing covers the outstanding claims of a collateral in the outcome, its pool's vault
      covers what the market owes in it, and claim custody covers every claim owed. */
  predicate CheckCollateral(b: Book, c: nat, vault: int)
    requires c < COLLATERALS
  {
    var yes, no := b.tokens[Claim(c, 0)], b.tokens[Claim(c, 1)];
    && 0 <= yes.supply <= U64_MAX && 0 <= no.supply <= U64_MAX
    && Rules.ClaimBacking(yes.supply, no.supply, b.market.Payouts()).Ok?
    && b.ledgers.backing[c] >= Rules.ClaimBacking(yes.supply, no.supply, b.market.Payouts()).value
    && vault >= b.ledgers.Liability(Underlying(c))
    && yes.supply >= yes.vault >= b.ledgers.Liability(Claim(c, 0))
    && no.supply >= no.vault >= b.ledgers.Liability(Claim(c, 1))
  }

  /** A mint or burn changed supply and custody by exactly the amount. */
  predicate CheckDelta(before: ClaimSnapshot, after: ClaimSnapshot, amount: int, minting: bool) {
    after == (if minting then ClaimSnapshot(before.supply + amount, before.balance + amount)
              else ClaimSnapshot(before.supply - amount, before.balance - amount))
  }

  function Liabilities(b: Book): (l: seq<int>)
    ensures |l| == COLLATERALS
  {
    [b.ledgers.Liability(0), b.ledgers.Liability(3), b.ledgers.Liability(6), b.ledgers.Liability(9)]
  }

  predicate EmptyUnderlying(b: Book) {
    forall c | 0 <= c < COLLATERALS :: b.ledgers.credits[Underlying(c)] == 0
  }

  predicate EmptyWallet(w: Wallet) {
    forall c | 0 <= c < COLLATERALS :: w.balances[Underlying(c)] == 0
  }

  /** What the two checks of an instruction's end mean: nobody holds pool credit in a market any more, and
      what the market owes each pool is what it owed. */
  lemma ChecksMean(w: Wallet, b: Book, r: Book)
    ensures EmptyWallet(w) <==> forall a | 0 <= a < ASSETS && a % 3 == 0 :: w.balances[a] == 0
    ensures Liabilities(b) == Liabilities(r) <==>
              forall a | 0 <= a < ASSETS && a % 3 == 0 :: b.ledgers.Liability(a) == r.ledgers.Liability(a)
  {
    hide Ledgers.Liability;
    forall a | 0 <= a < ASSETS && a % 3 == 0
      ensures a == Underlying(a / 3) && 0 <= a / 3 < COLLATERALS
    {
    }
    if Liabilities(b) == Liabilities(r) {
      assert forall i | 0 <= i < COLLATERALS :: Liabilities(b)[i] == Liabilities(r)[i];
    }
  }

  // -------------------------------------------------------- the guards never fire

  /** Backing in every outcome is the backing rule's bound. */
  lemma BackedPasses(b: Book, c: nat, vault: int)
    requires Backed(b, NO_AMOUNTS) && c < COLLATERALS && vault >= b.ledgers.Liability(Underlying(c))
    requires b.market.Payouts().Some? ==> ValidPayout(b.market.payouts.0, b.market.payouts.1)
    ensures CheckCollateral(b, c, vault)
  {
    hide Ledgers.Liability;
    assert CollateralBacked(b.market, b.ledgers, b.tokens, NO_AMOUNTS, c);
    assert ClaimCovered(b.ledgers, b.tokens, NO_AMOUNTS, Claim(c, 0));
    assert ClaimCovered(b.ledgers, b.tokens, NO_AMOUNTS, Claim(c, 1));
  }

  /** What the check means: whichever outcome is still possible, the collateral's backing pays every claim
      outstanding, its pool's vault holds that backing and all that is owed beside it, and custody has
      the tokens of every claim owed. */
  lemma CheckedIsPayable(b: Book, c: nat, vault: int, yes: nat, no: nat)
    requires c < COLLATERALS && CheckCollateral(b, c, vault)
    requires (yes, no) == (1, 0) || (yes, no) == (0, 1) || (yes, no) == (1, 1)
    requires b.market.state == REDEEMABLE || b.market.state == ARCHIVED ==> b.market.payouts == (yes, no)
    ensures var y, n := b.tokens[Claim(c, 0)], b.tokens[Claim(c, 1)];
            && yes * y.supply + no * n.supply <= (yes + no) * b.ledgers.backing[c]
            && b.ledgers.backing[c] + b.ledgers.credits[Underlying(c)] + b.ledgers.escrow[Underlying(c)] <= vault
            && b.ledgers.credits[Claim(c, 0)] + b.ledgers.escrow[Claim(c, 0)] + b.ledgers.fees[Claim(c, 0)] <= y.vault
            && b.ledgers.credits[Claim(c, 1)] + b.ledgers.escrow[Claim(c, 1)] + b.ledgers.fees[Claim(c, 1)] <= n.vault
            && y.vault <= y.supply && n.vault <= n.supply
  {
    hide Rules.ClaimBacking;
    var y, n := b.tokens[Claim(c, 0)], b.tokens[Claim(c, 1)];
    BackingPays(y.supply, n.supply, b.market.Payouts(), yes, no);
  }

  lemma BackingPays(y: u64, n: u64, payouts: Rules.Option<(nat, nat)>, yes: nat, no: nat)
    requires (yes, no) == (1, 0) || (yes, no) == (0, 1) || (yes, no) == (1, 1)
    requires payouts.None? || payouts == Rules.Some((yes, no))
    ensures Rules.ClaimBacking(y, n, payouts).Ok?
    ensures yes * y + no * n <= (yes + no) * Rules.ClaimBacking(y, n, payouts).value
  {
    if payouts.Some? && (yes, no) == (1, 1) {
      CeilBounds(y + n, 2);
    }
  }

  lemma DrainedPasses(b: Book)
    requires Balanced(b) && Drained(b)
    ensures EmptyUnderlying(b) && forall o | o in b.wallets :: EmptyWallet(b.wallets[o])
  {
    hide Balanced;
    forall c | 0 <= c < COLLATERALS
      ensures b.ledgers.credits[Underlying(c)] == 0
    {
      DrainedMarket(b, c);
    }
  }

  lemma SameLiabilities(b: Book, r: Book)
    requires forall c | 0 <= c < COLLATERALS :: r.ledgers.Liability(Underlying(c)) == b.ledgers.Liability(Underlying(c))
    ensures Liabilities(r) == Liabilities(b)
  {
    hide Ledgers.Liability;
    assert Underlying(0) == 0 && Underlying(1) == 3 && Underlying(2) == 6 && Underlying(3) == 9;
    assert r.ledgers.Liability(Underlying(0)) == b.ledgers.Liability(Underlying(0));
    assert r.ledgers.Liability(Underlying(1)) == b.ledgers.Liability(Underlying(1));
    assert r.ledgers.Liability(Underlying(2)) == b.ledgers.Liability(Underlying(2));
    assert r.ledgers.Liability(Underlying(3)) == b.ledgers.Liability(Underlying(3));
  }

  // ---------------------------------------------------------------- hydrating room

  /** The frame at i finds its owner's wallet empty, and its credit fits beside the others'. */
  ghost predicate FrameRoom(b: Book, f: Frame, available: int) {
    && f.owner in b.wallets && f.collateral < COLLATERALS && available >= 0
    && b.wallets[f.owner].balances[Underlying(f.collateral)] == 0
    && available <= U64_MAX && b.ledgers.credits[Underlying(f.collateral)] + available <= U64_MAX
  }

  lemma {:induction false} HydrateGrows(b: Book, frames: seq<Frame>, available: seq<int>, i: nat, n: nat)
    requires i <= n <= |frames| == |available| && FramesIn(b, frames) && forall x | x in available :: x >= 0
    ensures Grows(HydrateAll(b, frames, available, i), HydrateAll(b, frames, available, n))
  {
    hide Grows, Post;
    if i == n {
      StillGrows(HydrateAll(b, frames, available, i));
    } else {
      HydrateGrows(b, frames, available, i, n - 1);
      assert frames[n - 1] in frames && available[n - 1] in available;
      var before := HydrateAll(b, frames, available, n - 1);
      PostGrows(before, frames[n - 1].owner, Underlying(frames[n - 1].collateral), available[n - 1]);
      GrowsTransitive(HydrateAll(b, frames, available, i), before, HydrateAll(b, frames, available, n));
    }
  }

  lemma StillGrows(b: Book)
    ensures Grows(b, b)
  {
  }

  /** Credits of an underlying are part of what its pool bounds. */
  lemma CreditsBounded(b: Book, c: nat)
    requires Core(b) && Bounded(b) && c < COLLATERALS
    ensures b.ledgers.credits[Underlying(c)] <= U64_MAX
  {
    hide Balanced, OrdersOk, TermsOk;
    LedgersNonNegative(b, Underlying(c));
    assert b.ledgers.Liability(Underlying(c)) <= U64_MAX;
  }

  lemma FrameIsEmpty(b: Book, frames: seq<Frame>, available: seq<int>, i: nat)
    requires i < |frames| == |available| && FramesIn(b, frames) && Distinct(frames) && Drained(b)
    ensures frames[i].owner in b.wallets && frames[i].collateral < COLLATERALS
    ensures HydrateAll(b, frames, available, i).wallets[frames[i].owner].balances[Underlying(frames[i].collateral)] == 0
  {
    hide Post, HydrateAll, Drained;
    assert frames[i] in frames;
    var f := frames[i];
    forall j | 0 <= j < i
      ensures !Feeds(frames[j], f.owner, Underlying(f.collateral))
    {
      assert frames[j] != frames[i];
    }
    HydrateSkips(b, frames, available, i, f.owner, Underlying(f.collateral));
    StartsDrained(b, f.owner, f.collateral);
  }

  lemma FrameFits(b: Book, frames: seq<Frame>, available: seq<int>, i: nat)
    requires i < |frames| == |available| && FramesIn(b, frames) && Core(b) && Drained(b)
    requires forall x | x in available :: x >= 0
    requires Bounded(HydrateAll(b, frames, available, |frames|))
    ensures frames[i].collateral < COLLATERALS
    ensures available[i] >= 0
    ensures 0 <= HydrateAll(b, frames, available, i).ledgers.credits[Underlying(frames[i].collateral)]
    ensures HydrateAll(b, frames, available, i).ledgers.credits[Underlying(frames[i].collateral)] + available[i]
            <= U64_MAX
  {
    hide Core, Bounded, Grows, HydrateAll, Drained, Framed;
    assert frames[i] in frames && available[i] in available;
    var n, a := |frames|, Underlying(frames[i].collateral);
    HydrateKeeps(b, frames, available, n);
    HydrateKeeps(b, frames, available, i);
    CreditsBounded(HydrateAll(b, frames, available, n), frames[i].collateral);
    HydrateGrows(b, frames, available, i + 1, n);
    GrownCredits(HydrateAll(b, frames, available, i + 1), HydrateAll(b, frames, available, n), a);
    HydrateNext(b, frames, available, i);
    CreditsNonNegativeAt(HydrateAll(b, frames, available, i), a);
  }

  /** Every frame of an instruction loads. */
  lemma FrameLoads(b: Book, frames: seq<Frame>, available: seq<int>, i: nat)
    requires i < |frames| == |available| && FramesIn(b, frames) && Distinct(frames) && Core(b) && Drained(b)
    requires forall x | x in available :: x >= 0
    requires Bounded(HydrateAll(b, frames, available, |frames|))
    ensures FrameRoom(HydrateAll(b, frames, available, i), frames[i], available[i])
  {
    hide Core, Bounded, HydrateAll, Drained, Distinct, FramesIn;
    FrameIsEmpty(b, frames, available, i);
    FrameFits(b, frames, available, i);
  }

  lemma StartsDrained(b: Book, o: Pubkey, c: nat)
    requires Drained(b) && o in b.wallets && c < COLLATERALS
    ensures b.wallets[o].balances[Underlying(c)] == 0
  {
  }

  lemma GrownCredits(b: Book, r: Book, a: nat)
    requires Grows(b, r) && a < ASSETS
    ensures b.ledgers.credits[a] <= r.ledgers.credits[a]
  {
  }

  lemma CreditsNonNegativeAt(b: Book, a: nat)
    requires Core(b) && a < ASSETS
    ensures b.ledgers.credits[a] >= 0
  {
    hide Core;
    LedgersNonNegative(b, a);
  }

  lemma HydrateNext(b: Book, frames: seq<Frame>, available: seq<int>, i: nat)
    requires i < |frames| == |available| && FramesIn(b, frames)
    ensures frames[i].collateral < COLLATERALS
    ensures HydrateAll(b, frames, available, i + 1).ledgers.credits[Underlying(frames[i].collateral)]
            == HydrateAll(b, frames, available, i).ledgers.credits[Underlying(frames[i].collateral)] + available[i]
  {
    assert frames[i] in frames;
  }

  // ------------------------------------------------------------- releasing room

  /** What a release takes from escrow and exposure is there, and its owner's wallet takes it. */
  ghost predicate ReleaseRoom(b: Book, key: OrderKey) {
    && key in b.orders && key.owner in b.wallets && b.orders[key].terms.Asset() < ASSETS
    && var o := b.orders[key];
    && o.reserved >= 0 && o.openNotional >= 0
    && b.ledgers.escrow[o.terms.Asset()] >= o.reserved
    && b.wallets[key.owner].balances[o.terms.Asset()] + o.reserved <= U64_MAX
    && b.ledgers.credits[o.terms.Asset()] + o.reserved <= U64_MAX
    && b.ledgers.openNotional >= o.openNotional && b.wallets[key.owner].openNotional >= o.openNotional
  }

  lemma OwnExposure(b: Book, key: OrderKey)
    requires Core(b) && key in b.orders
    ensures key.owner in b.wallets
            && 0 <= b.orders[key].openNotional <= b.wallets[key.owner].openNotional <= b.ledgers.openNotional
  {
    hide NonNegative, OrdersOk, TermsOk;
    NotionalsNonNegative(b);
    SumAtLeast(b.orders, key, ExposureOf(key.owner));
    SumAtLeast(b.wallets, key.owner, WalletExposure());
  }

  /** Any live order of sound books can be released. */
  lemma ReleaseHasRoom(b: Book, key: OrderKey)
    requires Core(b) && Backed(b, NO_AMOUNTS) && Bounded(b) && key in b.orders && b.orders[key].status == LIVE
    ensures ReleaseRoom(b, key)
  {
    hide Core, Backed, Bounded, OrderTerms.Asset, OrderTerms.Collateral, Ledgers.Liability, Market.Payouts;
    LiveOrder(b, key);
    EscrowHolds(b, key);
    OwnExposure(b, key);
    var o, a := b.orders[key], b.orders[key].terms.Asset();
    BalanceInCredits(b, key.owner, a);
    CreditsAndEscrow(b, a);
  }

  /** Credits and escrow of one asset together fit u64. */
  lemma CreditsAndEscrow(b: Book, a: nat)
    requires Core(b) && Backed(b, NO_AMOUNTS) && Bounded(b) && a < ASSETS
    ensures b.ledgers.credits[a] + b.ledgers.escrow[a] <= U64_MAX
  {
    hide Balanced, OrdersOk, TermsOk, Market.Payouts;
    LedgersNonNegative(b, a);
    if IsClaim(a) {
      assert ClaimCovered(b.ledgers, b.tokens, NO_AMOUNTS, a);
    } else {
      assert a == Underlying(CollateralOf(a));
      assert b.ledgers.Liability(Underlying(CollateralOf(a))) <= U64_MAX;
    }
  }

  /** The handler's order of a release is the books' release. */
  lemma ReleaseAgrees(b: Book, key: OrderKey)
    requires key in b.orders && key.owner in b.wallets && b.orders[key].terms.Asset() < ASSETS
    ensures var o := b.orders[key];
            Release(b, key)
            == PutOrder(Unexpose(Post(Unescrow(b, o.terms.Asset(), o.reserved), key.owner, o.terms.Asset(), o.reserved),
                                 key.owner, o.openNotional), key, ClosedOrder(o))
  {
    hide OrderTerms.Asset, Post, Unexpose;
    var o := b.orders[key];
    var a := o.terms.Asset();
    SetOrderIs(Post(b, key.owner, a, o.reserved), key, ClosedOrder(o), o.reserved, o.openNotional);
    PostUnescrow(b, a, o.reserved, key.owner, o.reserved);
  }

  lemma PostUnescrow(b: Book, asset: nat, amount: int, owner: Pubkey, posted: int)
    requires asset < ASSETS && owner in b.wallets
    ensures Post(Unescrow(b, asset, amount), owner, asset, posted)
            == Unescrow(Post(b, owner, asset, posted), asset, amount)
  {
  }

  // -------------------------------------------------------------- opening room

  /** Opening an order in the handler's order of updates. */
  lemma OpenAgrees(b: Book, owner: Pubkey, t: OrderTerms, reserved: nat, notional: nat)
    requires owner in b.wallets && OrderKey(owner, t.salt) !in b.orders && t.Asset() < ASSETS
    requires t.branch < 2 && b.market.sequence[t.branch] < U64_MAX
    ensures var sequence := b.market.sequence[t.branch];
            var left := Unexpose(Unescrow(Post(b, owner, t.Asset(), -(reserved as int)), t.Asset(), -(reserved as int)),
                                 owner, -(notional as int));
            Reserve(b, owner, t, reserved, notional)
            == PutOrder(left.(market := left.market.(sequence := left.market.sequence[t.branch := sequence + 1])),
                        OrderKey(owner, t.salt), OpenedOrder(t, sequence, reserved, notional))
  {
    hide OrderTerms.Asset, Post, Unexpose, Unescrow, SetOrder;
    var sequence := b.market.sequence[t.branch];
    var m := b.market.(sequence := b.market.sequence[t.branch := sequence + 1]);
    MarketBeside(b, m, owner, t.Asset(), reserved, notional);
    SetNewOrderIs(Post(b.(market := m), owner, t.Asset(), -(reserved as int)), OrderKey(owner, t.salt),
                  OpenedOrder(t, sequence, reserved, notional));
  }

  lemma PostKeepsCounters(b: Book, owner: Pubkey, asset: nat, amount: int)
    requires owner in b.wallets && asset < ASSETS
    ensures var r := Post(b, owner, asset, amount);
            && r.ledgers.escrow == b.ledgers.escrow && r.ledgers.openNotional == b.ledgers.openNotional
            && r.wallets[owner].openNotional == b.wallets[owner].openNotional
  {
  }

  lemma SetNewOrderIs(b: Book, key: OrderKey, o: Order)
    requires key !in b.orders && key.owner in b.wallets && o.terms.Asset() < ASSETS
    ensures SetOrder(b, key, o)
            == PutOrder(Unexpose(Unescrow(b, o.terms.Asset(), -o.reserved), key.owner, -o.openNotional), key, o)
  {
    hide OrderTerms.Asset;
  }

  lemma MarketBeside(b: Book, m: Market, owner: Pubkey, asset: nat, reserved: nat, notional: nat)
    requires owner in b.wallets && asset < ASSETS
    ensures var x, y := Post(b, owner, asset, -(reserved as int)),
            Post(b.(market := m), owner, asset, -(reserved as int));
            Unexpose(Unescrow(y, asset, -(reserved as int)), owner, -(notional as int))
            == Unexpose(Unescrow(x, asset, -(reserved as int)), owner, -(notional as int)).(market := m)
  {
  }

  // -------------------------------------------------------------- minting room

  /** The owed tokens of the first n collaterals are minted. */
  ghost function MintSome(b: Book, minted: Amounts, n: nat): (r: Book)
    ensures r == b.(tokens := r.tokens)
  {
    b.(tokens := seq(ASSETS, a requires 0 <= a < ASSETS =>
                               if CollateralOf(a) < n
                               then ClaimTokens(b.tokens[a].supply + minted[a], b.tokens[a].vault + minted[a])
                               else b.tokens[a]))
  }

  /** Only claims are ever owed to mints, and only of the collaterals presented. */
  ghost predicate OwedWithin(minted: Amounts, presented: set<nat>) {
    forall a | 0 <= a < ASSETS && (!IsClaim(a) || CollateralOf(a) !in presented) :: minted[a] == 0
  }

  lemma MintSomeStarts(b: Book, minted: Amounts)
    ensures MintSome(b, minted, 0) == b && MintSome(b, minted, COLLATERALS) == MintAll(b, minted)
  {
    assert MintSome(b, minted, 0).tokens == b.tokens;
    assert MintSome(b, minted, COLLATERALS).tokens == MintAll(b, minted).tokens;
  }

  /** Minting one collateral's claims. */
  lemma MintNext(b: Book, minted: Amounts, presented: set<nat>, c: nat)
    requires c < COLLATERALS && OwedWithin(minted, presented)
    ensures c in presented ==>
              MintSome(b, minted, c + 1)
              == var r := MintSome(b, minted, c);
                 var y, n := r.tokens[Claim(c, 0)], r.tokens[Claim(c, 1)];
                 r.(tokens := r.tokens[Claim(c, 0) :=
                   ClaimTokens(y.supply + minted[Claim(c, 0)], y.vault + minted[Claim(c, 0)])]
                                      [Claim(c, 1) := ClaimTokens(n.supply + minted[Claim(c, 1)],
                                                                  n.vault + minted[Claim(c, 1)])])
    ensures c !in presented ==> MintSome(b, minted, c + 1) == MintSome(b, minted, c)
  {
    var r, s := MintSome(b, minted, c), MintSome(b, minted, c + 1);
    forall a | 0 <= a < ASSETS
      ensures s.tokens[a] == if c in presented && (a == Claim(c, 0) || a == Claim(c, 1))
                             then ClaimTokens(r.tokens[a].supply + minted[a], r.tokens[a].vault + minted[a])
                               else r.tokens[a]
    {
      assert CollateralOf(a) == c ==> a == Underlying(c) || a == Claim(c, 0) || a == Claim(c, 1);
    }
    if c in presented {
      var y, n := r.tokens[Claim(c, 0)], r.tokens[Claim(c, 1)];
      assert s.tokens == r.tokens[Claim(c, 0) :=
             ClaimTokens(y.supply + minted[Claim(c, 0)], y.vault + minted[Claim(c, 0)])]
                                 [Claim(c, 1) := ClaimTokens(n.supply + minted[Claim(c, 1)],
                                                             n.vault + minted[Claim(c, 1)])];
    } else {
      assert s.tokens == r.tokens;
    }
  }

  /** The check of a collateral looks at its own tokens alone. */
  lemma CheckIsLocal(b: Book, minted: Amounts, c: nat, vault: int)
    requires c < COLLATERALS
    ensures CheckCollateral(MintSome(b, minted, c + 1), c, vault) <==> CheckCollateral(MintAll(b, minted), c, vault)
  {
    hide Ledgers.Liability, Market.Payouts, Rules.ClaimBacking;
  }

  /** A trade owes only the mints of its leg and of the quote. */
  lemma OwedStays(b: Book, minted: Amounts, t: Trade, presented: set<nat>)
    requires Settleable(b, t) && OwedWithin(minted, presented) && t.base in presented && QUOTE in presented
    ensures OwedWithin(SettleMints(b, minted, t), presented)
  {
    hide SettleMints, Floor;
    forall a | 0 <= a < ASSETS && (!IsClaim(a) || CollateralOf(a) !in presented)
      ensures SettleMints(b, minted, t)[a] == 0
    {
      SettleMintsAt(b, minted, t, a);
    }
  }

  lemma FlushRoom(b: Book, frames: seq<Frame>, i: nat)
    requires i < |frames| && FramesIn(b, frames) && Core(b)
    ensures frames[i].owner in b.wallets && frames[i].collateral < COLLATERALS
    ensures var r, a := FlushAll(b, frames, i), Underlying(frames[i].collateral);
            0 <= r.wallets[frames[i].owner].balances[a] <= r.ledgers.credits[a]
  {
    hide Core, FlushAll;
    assert frames[i] in frames;
    FlushKeeps(b, frames, i);
    var r := FlushAll(b, frames, i);
    BalanceInCredits(r, frames[i].owner, Underlying(frames[i].collateral));
    BalanceNonNegative(r, frames[i].owner, Underlying(frames[i].collateral));
  }

  lemma BalanceNonNegative(b: Book, o: Pubkey, a: nat)
    requires Core(b) && o in b.wallets && a < ASSETS
    ensures b.wallets[o].balances[a] >= 0
  {
    hide Balanced, OrdersOk, TermsOk;
  }

  lemma UnexposedPost(b: Book, key: OrderKey)
    requires key in b.orders && key.owner in b.wallets && b.orders[key].terms.Asset() < ASSETS
    ensures var o := b.orders[key];
            var p := Post(Unescrow(b, o.terms.Asset(), o.reserved), key.owner, o.terms.Asset(), o.reserved);
            p.ledgers.openNotional == b.ledgers.openNotional
              && p.wallets[key.owner].openNotional == b.wallets[key.owner].openNotional
  {
    hide OrderTerms.Asset;
  }

  lemma MintedPasses(b: Book, minted: Amounts, c: nat, vault: int)
    requires c < COLLATERALS && Core(MintAll(b, minted)) && Backed(MintAll(b, minted), NO_AMOUNTS)
    requires b.market.Payouts().Some? ==> ValidPayout(b.market.payouts.0, b.market.payouts.1)
    requires vault >= b.ledgers.Liability(Underlying(c))
    ensures CheckCollateral(MintSome(b, minted, c + 1), c, vault)
  {
    hide Core, Backed, Ledgers.Liability, MintSome, CheckCollateral, Market.Payouts;
    CheckIsLocal(b, minted, c, vault);
    BackedPasses(MintAll(b, minted), c, vault);
  }

  lemma FlushStarts(b: Book, frames: seq<Frame>, credits: map<CreditKey, int>)
    requires FramesIn(b, frames)
    ensures FlushAll(b, frames, 0) == b && PutBack(credits, b.market, frames, AllFlushed(b, frames), 0) == credits
  {
  }

  lemma FlushNext(b: Book, frames: seq<Frame>, credits: map<CreditKey, int>, i: nat)
    requires i < |frames| && FramesIn(b, frames)
    ensures frames[i].owner in b.wallets && frames[i].collateral < COLLATERALS
    ensures FlushAll(b, frames, i + 1) == Drain(FlushAll(b, frames, i), frames[i])
    ensures var values := AllFlushed(b, frames);
            && PutBack(credits, b.market, frames, values, i + 1)
               == PutBack(credits, b.market, frames, values, i)[KeyOf(b.market, frames[i]) := values[i]]
            && values[i] == FlushAll(b, frames, i).wallets[frames[i].owner].balances[Underlying(frames[i].collateral)]
  {
    hide Drain;
    assert frames[i] in frames;
  }

  /** In flight too any live order can be released. */
  lemma FlightReleases(f: Flight, key: OrderKey)
    requires Steady(f) && key in f.book.orders && f.book.orders[key].status == LIVE
    ensures ReleaseRoom(f.book, key)
  {
    hide Core, Backed, Bounded, OrderTerms.Asset, OrderTerms.Collateral, Ledgers.Liability, Market.Payouts;
    LiveOrder(f.book, key);
    EscrowHolds(f.book, key);
    OwnExposure(f.book, key);
    var a := f.book.orders[key].terms.Asset();
    BalanceInCredits(f.book, key.owner, a);
    FlightCredits(f, a);
  }

  lemma FlightCredits(f: Flight, a: nat)
    requires Steady(f) && a < ASSETS
    ensures f.book.ledgers.credits[a] + f.book.ledgers.escrow[a] <= U64_MAX
  {
    hide Balanced, OrdersOk, TermsOk;
    var b := f.book;
    var c := CollateralOf(a);
    LedgersNonNegative(b, a);
    BackingFits(b, c);
    if IsClaim(a) {
      assert a == Claim(c, 0) || a == Claim(c, 1);
      assert CollateralBacked(b.market, b.ledgers, b.tokens, f.minted, c);
      assert ClaimCovered(b.ledgers, b.tokens, f.minted, a);
    } else {
      assert a == Underlying(c);
      assert b.ledgers.Liability(Underlying(c)) <= U64_MAX;
    }
  }
}
