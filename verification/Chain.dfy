/** The whole deployment: pools and pool credit shared by every market, trader nonces,
    every market's books, and the clock. */
module Chain {
  import opened Exact
  import opened Rules
  import opened Sums
  import opened Conversion
  import opened State
  import opened Settlement
  import opened InFlight
  import opened Matching

  /** A pool's recorded liability and the balance of its token vault. */
  datatype Pool = Pool(liability: int, vault: int)

  datatype CreditKey = CreditKey(mint: Pubkey, owner: Pubkey)

  datatype Chain = Chain(now: int, config: Config, quoteMint: Pubkey, pools: map<Pubkey, Pool>,
                         credits: map<CreditKey, int>, traders: map<Pubkey, u64>, books: map<Pubkey, Book>)

  // -------------------------------------------------------------- invariants

  ghost function CreditIn(mint: Pubkey): (CreditKey, int) -> int {
    (k: CreditKey, amount: int) => if k.mint == mint then amount else 0
  }

  /** What a market's books demand from the pool of a mint through collateral c. */
  ghost function Share(b: Book, mint: Pubkey, c: nat): int
    requires c < COLLATERALS
  {
    if c <= b.market.bases && b.market.mints[c] == mint then b.ledgers.Liability(Underlying(c)) else 0
  }

  ghost function Demand(b: Book, mint: Pubkey): int {
    Share(b, mint, 0) + Share(b, mint, 1) + Share(b, mint, 2) + Share(b, mint, 3)
  }

  ghost function DemandOf(mint: Pubkey): (Pubkey, Book) -> int {
    (id, b) => Demand(b, mint)
  }

  /** Each pool owes its owners' available credit and every market's backing and escrow. */
  ghost predicate PoolsBalanced(s: Chain) {
    forall p | p in s.pools ::
      s.pools[p].liability == SumBy(s.credits, CreditIn(p)) + SumBy(s.books, DemandOf(p))
  }

  ghost predicate LegOk(m: Market, c: nat) {
    && 1 <= c <= MAX_BASES
    && ListingChecks(m.terms.caps.maxQuantity, m.terms.caps.step, m.legs[c - 1].scale, m.legs[c - 1].multiplier)
  }

  ghost predicate LegsOk(m: Market) {
    && (forall c | 1 <= c <= m.bases :: LegOk(m, c))
    && (forall c | 0 <= c < COLLATERALS :: Underlying(c) in m.initialized <==> c <= m.bases)
    && (forall c, d | 0 <= c < d <= m.bases && d < COLLATERALS :: m.mints[c] != m.mints[d])
  }

  ghost predicate LifecycleOk(m: Market) {
    && (m.state == SCHEDULED || m.state == OPEN || m.state == FROZEN || m.state == AWAITING
        || m.state == REDEEMABLE || m.state == ARCHIVED)
    && (m.Payouts().Some? ==> ValidPayout(m.payouts.0, m.payouts.1))
    && (m.state == OPEN ==> m.Ready(QUOTE))
  }

  ghost predicate ExposureCapped(b: Book) {
    && (forall o | o in b.wallets :: b.wallets[o].openNotional <= b.market.terms.caps.maxWallet)
    && b.ledgers.openNotional <= b.market.terms.caps.maxMarket
  }

  /** Nothing is owed in a collateral that is not listed. */
  ghost predicate UnlistedEmpty(b: Book) {
    forall c | b.market.bases < c < COLLATERALS ::
      && b.ledgers.backing[c] == 0
      && b.tokens[Claim(c, 0)] == ClaimTokens(0, 0) && b.tokens[Claim(c, 1)] == ClaimTokens(0, 0)
  }

  ghost predicate OnlyResting(b: Book) {
    forall k | k in b.orders && b.orders[k].status == LIVE :: b.orders[k].terms.tif == 0
  }

  /** Books between instructions. */
  ghost predicate BookOk(b: Book) {
    && Core(b) && Backed(b, NO_AMOUNTS) && Drained(b)
    && LegsOk(b.market) && LifecycleOk(b.market) && ExposureCapped(b) && UnlistedEmpty(b) && OnlyResting(b)
  }

  lemma BookParts(b: Book)
    requires BookOk(b)
    ensures ExposureCapped(b) && UnlistedEmpty(b) && OnlyResting(b) && LegsOk(b.market) && LifecycleOk(b.market)
  {
  }

  /** A book's collaterals all have pools, its participants all have trader records. */
  ghost predicate Anchored(s: Chain, b: Book) {
    && (forall c | 0 <= c <= b.market.bases && c < COLLATERALS :: b.market.mints[c] in s.pools)
    && (forall o | o in b.wallets :: o in s.traders)
  }

  ghost predicate AccountsOk(s: Chain) {
    && s.config.makerBps <= MAX_FEE_BPS && s.config.takerBps <= MAX_FEE_BPS
    && (forall p | p in s.pools :: 0 <= s.pools[p].liability <= s.pools[p].vault <= U64_MAX)
    && (forall k | k in s.credits :: s.credits[k] >= 0 && k.mint in s.pools)
  }

  ghost predicate BooksOk(s: Chain) {
    forall id | id in s.books :: BookOk(s.books[id]) && Anchored(s, s.books[id])
  }

  /** The global invariant. */
  ghost predicate Inv(s: Chain) {
    AccountsOk(s) && PoolsBalanced(s) && BooksOk(s)
  }

  // ------------------------------------------- moving credit through a market

  function KeyOf(m: Market, f: Frame): CreditKey
    requires f.collateral < COLLATERALS
  {
    CreditKey(m.mints[f.collateral], f.owner)
  }

  /** Frames name distinct existing credit accounts of participants in listed collaterals. */
  predicate FramesOk(credits: map<CreditKey, int>, b: Book, frames: seq<Frame>) {
    && Distinct(frames)
    && (forall f | f in frames ::
          f.owner in b.wallets && f.collateral < COLLATERALS && f.collateral <= b.market.bases
          && KeyOf(b.market, f) in credits)
  }

  function Available(credits: map<CreditKey, int>, b: Book, frames: seq<Frame>): (a: seq<int>)
    requires FramesOk(credits, b, frames)
    ensures |a| == |frames|
  {
    seq(|frames|, i requires 0 <= i < |frames| =>
                    assert frames[i] in frames;
                    credits[KeyOf(b.market, frames[i])])
  }

  /** Stores values into the first n frames' credit accounts. */
  function PutBack(credits: map<CreditKey, int>, m: Market, frames: seq<Frame>, values: seq<int>,
                   n: nat): map<CreditKey, int>
    requires n <= |frames| == |values| && forall f | f in frames :: f.collateral < COLLATERALS
  {
    if n == 0 then credits else
    assert frames[n - 1] in frames;
    PutBack(credits, m, frames, values, n - 1)[KeyOf(m, frames[n - 1]) := values[n - 1]]
  }

  /** The part of the first n values that belongs to one mint. */
  ghost function Drawn(m: Market, frames: seq<Frame>, values: seq<int>, mint: Pubkey, n: nat): int
    requires n <= |frames| == |values| && forall f | f in frames :: f.collateral < COLLATERALS
  {
    if n == 0 then 0 else
    assert frames[n - 1] in frames;
    Drawn(m, frames, values, mint, n - 1)
    + (if m.mints[frames[n - 1].collateral] == mint then values[n - 1] else 0)
  }

  ghost predicate MintsDistinct(m: Market) {
    forall c, d | 0 <= c < d <= m.bases && d < COLLATERALS :: m.mints[c] != m.mints[d]
  }

  lemma KeysDistinct(credits: map<CreditKey, int>, b: Book, frames: seq<Frame>, i: nat, j: nat)
    requires FramesOk(credits, b, frames) && MintsDistinct(b.market) && i < j < |frames|
    ensures frames[i].collateral < COLLATERALS && frames[j].collateral < COLLATERALS
    ensures KeyOf(b.market, frames[i]) != KeyOf(b.market, frames[j])
  {
    assert frames[i] in frames && frames[j] in frames;
  }

  lemma {:induction false} PutBackAt(credits: map<CreditKey, int>, b: Book, frames: seq<Frame>, values: seq<int>,
                                     n: nat, k: CreditKey)
    requires FramesOk(credits, b, frames) && MintsDistinct(b.market) && n <= |frames| == |values|
    ensures var r := PutBack(credits, b.market, frames, values, n);
            && r.Keys == credits.Keys
            && (k in credits && (forall i | 0 <= i < n :: KeyOf(b.market, frames[i]) != k) ==> r[k] == credits[k])
            && (forall i | 0 <= i < n && KeyOf(b.market, frames[i]) == k :: r[k] == values[i])
  {
    if n > 0 {
      PutBackAt(credits, b, frames, values, n - 1, k);
      assert frames[n - 1] in frames;
      forall i | 0 <= i < n - 1
        ensures KeyOf(b.market, frames[i]) != KeyOf(b.market, frames[n - 1])
      {
        KeysDistinct(credits, b, frames, i, n - 1);
      }
    }
  }

  /** Storing values into distinct accounts changes each mint's total by the difference. */
  lemma {:induction false} PutBackSum(credits: map<CreditKey, int>, b: Book, frames: seq<Frame>, values: seq<int>,
                                      mint: Pubkey, n: nat)
    requires FramesOk(credits, b, frames) && MintsDistinct(b.market) && n <= |frames| == |values|
    ensures SumBy(PutBack(credits, b.market, frames, values, n), CreditIn(mint))
            == SumBy(credits, CreditIn(mint)) + Drawn(b.market, frames, values, mint, n)
               - Drawn(b.market, frames, Available(credits, b, frames), mint, n)
  {
    if n > 0 {
      PutBackSum(credits, b, frames, values, mint, n - 1);
      var before := PutBack(credits, b.market, frames, values, n - 1);
      assert frames[n - 1] in frames;
      var k := KeyOf(b.market, frames[n - 1]);
      forall i | 0 <= i < n - 1
        ensures KeyOf(b.market, frames[i]) != k
      {
        KeysDistinct(credits, b, frames, i, n - 1);
      }
      PutBackAt(credits, b, frames, values, n - 1, k);
      SumUpdate(before, k, values[n - 1], CreditIn(mint));
    }
  }

  lemma PostMovesDemand(b: Book, owner: Pubkey, c: nat, amount: int, mint: Pubkey)
    requires owner in b.wallets && c < COLLATERALS && c <= b.market.bases
    ensures Demand(Post(b, owner, Underlying(c), amount), mint)
            == Demand(b, mint) + (if b.market.mints[c] == mint then amount else 0)
  {
    forall d | 0 <= d < COLLATERALS
      ensures Share(Post(b, owner, Underlying(c), amount), mint, d)
              == Share(b, mint, d) + (if c == d && b.market.mints[c] == mint then amount else 0)
    {
      PostMovesLiability(b, owner, Underlying(c), amount, Underlying(d));
    }
  }

  lemma {:induction false} HydrateMovesDemand(credits: map<CreditKey, int>, b: Book, frames: seq<Frame>, mint: Pubkey,
                                              n: nat)
    requires FramesOk(credits, b, frames) && n <= |frames|
    ensures Demand(HydrateAll(b, frames, Available(credits, b, frames), n), mint)
            == Demand(b, mint) + Drawn(b.market, frames, Available(credits, b, frames), mint, n)
  {
    hide Demand, Post;
    if n > 0 {
      HydrateMovesDemand(credits, b, frames, mint, n - 1);
      var a := Available(credits, b, frames);
      assert frames[n - 1] in frames;
      PostMovesDemand(HydrateAll(b, frames, a, n - 1), frames[n - 1].owner, frames[n - 1].collateral, a[n - 1], mint);
    }
  }

  lemma DrainMovesDemand(b: Book, f: Frame, mint: Pubkey)
    requires f.owner in b.wallets && f.collateral < COLLATERALS && f.collateral <= b.market.bases
    ensures Demand(Drain(b, f), mint)
            == Demand(b, mint) - (if b.market.mints[f.collateral] == mint
                                  then b.wallets[f.owner].balances[Underlying(f.collateral)] else 0)
  {
    hide Demand, Post;
    PostMovesDemand(b, f.owner, f.collateral, -b.wallets[f.owner].balances[Underlying(f.collateral)], mint);
  }

  ghost function AllFlushed(b: Book, frames: seq<Frame>): (v: seq<int>)
    requires FramesIn(b, frames)
    ensures |v| == |frames|
  {
    seq(|frames|, i requires 0 <= i < |frames| => Flushed(b, frames, i))
  }

  lemma {:induction false} FlushMovesDemand(credits: map<CreditKey, int>, b: Book, frames: seq<Frame>, mint: Pubkey,
                                            n: nat)
    requires FramesOk(credits, b, frames) && n <= |frames|
    ensures Demand(FlushAll(b, frames, n), mint)
            == Demand(b, mint) - Drawn(b.market, frames, AllFlushed(b, frames), mint, n)
  {
    hide Demand, Drain;
    if n > 0 {
      FlushMovesDemand(credits, b, frames, mint, n - 1);
      assert frames[n - 1] in frames;
      DrainMovesDemand(FlushAll(b, frames, n - 1), frames[n - 1], mint);
    }
  }

  lemma SameDemand(b: Book, r: Book, mint: Pubkey)
    requires r.market.bases == b.market.bases && r.market.mints == b.market.mints
    requires forall c | 0 <= c < COLLATERALS :: r.ledgers.Liability(Underlying(c)) == b.ledgers.Liability(Underlying(c))
    ensures Demand(r, mint) == Demand(b, mint)
  {
  }

  /** Credit hydrated into a market and flushed out of it is neither created nor lost, as
      long as the market itself moved no underlying liability in between. */
  lemma RoundTripConserves(credits: map<CreditKey, int>, b: Book, frames: seq<Frame>, after: Book, mint: Pubkey)
    requires FramesOk(credits, b, frames) && MintsDistinct(b.market)
    requires after.wallets.Keys == b.wallets.Keys
    requires after.market.bases == b.market.bases && after.market.mints == b.market.mints
    requires forall c | 0 <= c < COLLATERALS ::
               after.ledgers.Liability(Underlying(c))
               == HydrateAll(b, frames, Available(credits, b, frames), |frames|).ledgers.Liability(Underlying(c))
    ensures FramesIn(after, frames)
    ensures SumBy(PutBack(credits, b.market, frames, AllFlushed(after, frames), |frames|), CreditIn(mint))
            + Demand(FlushAll(after, frames, |frames|), mint)
            == SumBy(credits, CreditIn(mint)) + Demand(b, mint)
  {
    var hydrated := HydrateAll(b, frames, Available(credits, b, frames), |frames|);
    var values := AllFlushed(after, frames);
    assert FramesOk(credits, after, frames) by {
      forall f | f in frames
        ensures KeyOf(after.market, f) in credits
      {
        assert KeyOf(b.market, f) in credits;
      }
    }
    HydrateMovesDemand(credits, b, frames, mint, |frames|);
    SameDemand(hydrated, after, mint);
    FlushMovesDemand(credits, after, frames, mint, |frames|);
    PutBackSum(credits, b, frames, values, mint, |frames|);
    SameDrawn(b.market, after.market, frames, values, mint, |frames|);
  }

  lemma {:induction false} SameDrawn(m: Market, r: Market, frames: seq<Frame>, values: seq<int>, mint: Pubkey, n: nat)
    requires n <= |frames| == |values| && forall f | f in frames :: f.collateral < COLLATERALS
    requires r.mints == m.mints
    ensures Drawn(r, frames, values, mint, n) == Drawn(m, frames, values, mint, n)
  {
    if n > 0 {
      SameDrawn(m, r, frames, values, mint, n - 1);
    }
  }

  // ------------------------------------------ one market and one credit account

  /** A market's new books and one credit account's new amount. */
  function Rebooked(s: Chain, id: Pubkey, b: Book, key: CreditKey, available: int): Chain {
    s.(books := s.books[id := b], credits := s.credits[key := available])
  }

  /** The same listing of the same collaterals for the same participants. */
  ghost predicate SameMarket(b: Book, r: Book) {
    r.market.bases == b.market.bases && r.market.mints == b.market.mints && r.wallets.Keys == b.wallets.Keys
  }

  lemma DemandMoves(b: Book, r: Book, c: nat, amount: int, mint: Pubkey)
    requires SameMarket(b, r) && c < COLLATERALS && c <= b.market.bases && Owes(b, r, c, amount)
    ensures Demand(r, mint) == Demand(b, mint) + (if b.market.mints[c] == mint then amount else 0)
  {
    hide Ledgers.Liability;
  }

  lemma CreditKeepsAccounts(s: Chain, key: CreditKey, available: nat, after: Chain)
    requires AccountsOk(s) && key in s.credits && after.config == s.config && after.pools == s.pools
    requires after.credits == s.credits[key := available]
    ensures AccountsOk(after)
  {
  }

  lemma PoolMoves(s: Chain, id: Pubkey, b: Book, key: CreditKey, amount: int, p: Pubkey)
    requires id in s.books && key in s.credits
    requires Demand(b, p) == Demand(s.books[id], p) + (if key.mint == p then amount else 0)
    ensures SumBy(s.credits[key := s.credits[key] - amount], CreditIn(p)) + SumBy(s.books[id := b], DemandOf(p))
            == SumBy(s.credits, CreditIn(p)) + SumBy(s.books, DemandOf(p))
  {
    hide Demand;
    SumUpdate(s.books, id, b, DemandOf(p));
    SumUpdate(s.credits, key, s.credits[key] - amount, CreditIn(p));
  }

  /** One market's sound books replaced by sound books. */
  lemma BooksStay(s: Chain, id: Pubkey, b: Book, after: Chain)
    requires BooksOk(s) && id in s.books && BookOk(b) && SameMarket(s.books[id], b)
    requires after.books == s.books[id := b] && after.pools == s.pools && after.traders == s.traders
    ensures BooksOk(after)
  {
    hide BookOk;
    assert Anchored(s, s.books[id]);
    forall k | k in after.books
      ensures BookOk(after.books[k]) && Anchored(after, after.books[k])
    {
      assert k in s.books && BookOk(s.books[k]) && Anchored(s, s.books[k]);
    }
  }

  /** The book's underlying liabilities differ from another's by amount in collateral c. */
  ghost predicate Owes(b: Book, r: Book, c: nat, amount: int) {
    forall k | 0 <= k < COLLATERALS ::
      r.ledgers.Liability(Underlying(k)) == b.ledgers.Liability(Underlying(k)) + (if k == c then amount else 0)
  }

  /** What one credit account loses and a market's books gain leaves the pools balanced. */
  lemma RebookedKeepsInv(s: Chain, id: Pubkey, b: Book, c: nat, owner: Pubkey, amount: int)
    requires Inv(s) && id in s.books && BookOk(b) && SameMarket(s.books[id], b)
    requires c < COLLATERALS && c <= b.market.bases && Owes(s.books[id], b, c, amount)
    requires CreditKey(b.market.mints[c], owner) in s.credits
             && s.credits[CreditKey(b.market.mints[c], owner)] >= amount
    ensures var key := CreditKey(b.market.mints[c], owner);
            Inv(Rebooked(s, id, b, key, s.credits[key] - amount))
  {
    hide Owes, BookOk, Demand, AccountsOk, BooksOk;
    var key := CreditKey(b.market.mints[c], owner);
    var after := Rebooked(s, id, b, key, s.credits[key] - amount);
    CreditKeepsAccounts(s, key, s.credits[key] - amount, after);
    BooksStay(s, id, b, after);
    forall p | p in after.pools
      ensures after.pools[p].liability == SumBy(after.credits, CreditIn(p)) + SumBy(after.books, DemandOf(p))
    {
      DemandMoves(s.books[id], b, c, amount, p);
      PoolMoves(s, id, b, key, amount, p);
    }
  }

  /** Books that owe the pools the same replace each other. */
  lemma SwappedKeepsInv(s: Chain, id: Pubkey, b: Book)
    requires Inv(s) && id in s.books && BookOk(b) && SameMarket(s.books[id], b) && Owes(s.books[id], b, 0, 0)
    ensures Inv(s.(books := s.books[id := b]))
  {
    hide Owes, BookOk, Demand, BooksOk;
    var after := s.(books := s.books[id := b]);
    BooksStay(s, id, b, after);
    forall p | p in after.pools
      ensures after.pools[p].liability == SumBy(after.credits, CreditIn(p)) + SumBy(after.books, DemandOf(p))
    {
      SumUpdate(s.books, id, b, DemandOf(p));
      DemandMoves(s.books[id], b, 0, 0, p);
    }
  }
}
