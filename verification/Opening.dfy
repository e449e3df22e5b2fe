/** The guards a placement opens with, before its plan is reviewed, and why none of them fires: the
    pools and the claims of every presented collateral, the participants' wallets, and the room the
    taker's order opens in. */
module Opening {
  import opened Exact
  import opened Rules
  import opened Conversion
  import opened State
  import opened Settlement
  import opened InFlight
  import opened Matching
  import opened Chain
  import opened Exchange
  import opened Placing
  import opened Completion
  import opened Positions
  import opened Fills
  import opened Guards

  /** A collateral's pool holds what it owes, and owes what the market does. */
  predicate PoolBacks(pools: map<Pubkey, Pool>, b: Book, c: nat)
    requires c < COLLATERALS
  {
    && b.market.mints[c] in pools
    && pools[b.market.mints[c]].vault >= pools[b.market.mints[c]].liability >= b.ledgers.Liability(Underlying(c))
  }

  /** No pool lacks what it owes, no claim its backing and custody, and no wallet keeps pool credit. */
  predicate OpeningGuards(pools: map<Pubkey, Pool>, b: Book, r: Request) {
    && (forall c: nat | c < COLLATERALS && c in r.Custody() ::
          PoolBacks(pools, b, c) && CheckCollateral(b, c, pools[b.market.mints[c]].vault))
    && (forall p | p in r.participants :: p in b.wallets && EmptyWallet(b.wallets[p]))
  }

  /** Checks the pool of every presented collateral, then its claims, then every participant's wallet. */
  method CheckOpening(pools: map<Pubkey, Pool>, b: Book, r: Request) returns (o: Outcome)
    ensures o.Done? <==> OpeningGuards(pools, b, r)
  {
    hide CheckCollateral, EmptyWallet, Ledgers.Liability;
    for c: nat := 0 to COLLATERALS
      invariant forall d: nat | d < c && d in r.Custody() :: PoolBacks(pools, b, d)
    {
      if c in r.Custody() && !PoolBacks(pools, b, c) { return Fail(Insolvent); }
    }
    for c: nat := 0 to COLLATERALS
      invariant forall d: nat | d < c && d in r.Custody() :: CheckCollateral(b, d, pools[b.market.mints[d]].vault)
    {
      if c in r.Custody() && !CheckCollateral(b, c, pools[b.market.mints[c]].vault) { return Fail(ClaimBacking); }
    }
    for i := 0 to |r.participants|
      invariant forall j | 0 <= j < i :: r.participants[j] in b.wallets && EmptyWallet(b.wallets[r.participants[j]])
    {
      var p := r.participants[i];
      if p !in b.wallets || !EmptyWallet(b.wallets[p]) { return Fail(InvalidAccount); }
    }
    o := Done;
  }

  /** Between instructions no pool credit is held in a market. */
  lemma NothingHydrated(s: Chain, id: Pubkey)
    requires Inv(s) && id in s.books
    ensures EmptyUnderlying(s.books[id]) && forall o | o in s.books[id].wallets :: EmptyWallet(s.books[id].wallets[o])
  {
    hide Inv, Balanced, NonNegative, OrdersOk, TermsOk, LegsOk, Backed, Drained, EmptyUnderlying, EmptyWallet;
    InvBook(s, id);
    DrainedPasses(s.books[id]);
  }

  /** A market is owed no more by its pool than the pool owes, and the pool holds that. */
  lemma PoolIsSolvent(s: Chain, id: Pubkey, c: nat)
    requires Inv(s) && id in s.books && c < COLLATERALS && c <= s.books[id].market.bases
    ensures PoolBacks(s.pools, s.books[id], c)
  {
    hide PoolsBalanced, BookOk, Core, Ledgers.Liability, Demand;
    var b := s.books[id];
    InvBook(s, id);
    PoolHolds(s, id, b.market.mints[c]);
    ShareFits(b, b.market.mints[c], c);
  }

  lemma ClaimsAreCovered(b: Book, c: nat, vault: int)
    requires BookOk(b) && c < COLLATERALS && vault >= b.ledgers.Liability(Underlying(c))
    ensures CheckCollateral(b, c, vault)
  {
    hide Core, LegsOk, Backed, CheckCollateral, Ledgers.Liability;
    BookBacked(b, c);
    BackedPasses(b, c, vault);
  }

  /** No opening guard fires. */
  lemma OpeningPasses(s: Chain, id: Pubkey, r: Request)
    requires Inv(s) && Entry(s, id, r).Done?
    ensures OpeningGuards(s.pools, s.books[id], r)
  {
    hide Inv, Entry, BookOk, CheckCollateral, EmptyUnderlying, EmptyWallet, Ledgers.Liability, LegOpen, Core, LegsOk,
      TermsShape, FramesPresented, SingleBase, BoundNonce, Caps.ValidateOrder;
    EntryFacts(s, id, r);
    InvBook(s, id);
    NothingHydrated(s, id);
    forall c: nat | c < COLLATERALS && c in r.Custody()
      ensures PoolBacks(s.pools, s.books[id], c)
              && CheckCollateral(s.books[id], c, s.pools[s.books[id].market.mints[c]].vault)
    {
      PoolIsSolvent(s, id, c);
      ClaimsAreCovered(s.books[id], c, s.pools[s.books[id].market.mints[c]].vault);
    }
  }

  // ------------------------------------------------------- room for the new order

  lemma {:induction false} HydrateKeepsLedgers(b: Book, frames: seq<Frame>, available: seq<int>, n: nat)
    requires n <= |frames| == |available| && FramesIn(b, frames)
    ensures HydrateAll(b, frames, available, n).ledgers.openNotional == b.ledgers.openNotional
    ensures HydrateAll(b, frames, available, n).ledgers.escrow == b.ledgers.escrow
  {
    if n > 0 {
      HydrateKeepsLedgers(b, frames, available, n - 1);
      assert frames[n - 1] in frames;
    }
  }

  /** Escrow and both exposure counters have room for a 64-bit reservation and notional: 128 bits carry
      far more than 64-bit pools and caps let them hold. */
  ghost predicate OpeningRoom(b: Book, owner: Pubkey, asset: nat)
    requires owner in b.wallets && asset < ASSETS
  {
    b.ledgers.escrow[asset] <= U64_MAX && b.ledgers.openNotional <= U64_MAX && b.wallets[owner].openNotional <= U64_MAX
  }

  lemma BookCapped(b: Book, o: Pubkey)
    requires BookOk(b) && o in b.wallets
    ensures b.wallets[o].openNotional <= U64_MAX && b.ledgers.openNotional <= U64_MAX
  {
    hide Core, Backed, Drained, LegsOk, LifecycleOk, UnlistedEmpty, OnlyResting;
  }

  lemma OpeningFits(s: Chain, id: Pubkey, r: Request)
    requires Inv(s) && Entry(s, id, r).Done?
    ensures FramesOk(s.credits, s.books[id], r.frames) && r.owner in s.books[id].wallets && r.terms.Asset() < ASSETS
    ensures OpeningRoom(Hydrated(s, id, r), r.owner, r.terms.Asset())
    ensures Ceil(r.terms.quantity, r.terms.price) <= U64_MAX
  {
    hide Inv, Entry, BookOk, LegOpen, Core, LegsOk, TermsShape, FramesPresented, SingleBase, BoundNonce, Ceil,
      HydrateAll, FramesOk, Backed, Bounded, Framed, OrderTerms.Asset, OrderTerms.Collateral, OrderTermsOk;
    EntryFacts(s, id, r);
    InvBook(s, id);
    FramesLoad(s, id, r);
    TakerTerms(s, id, r);
    FramesAreIn(s.credits, s.books[id], r.frames);
    var b, available := s.books[id], Available(s.credits, s.books[id], r.frames);
    HydratedKeeps(s, id, r.frames);
    HydrateKeepsLedgers(b, r.frames, available, |r.frames|);
    HydrateExposes(b, r.frames, available, |r.frames|, r.owner);
    BookCapped(b, r.owner);
    CreditsAndEscrow(Hydrated(s, id, r), r.terms.Asset());
    LedgersNonNegative(Hydrated(s, id, r), r.terms.Asset());
  }
}
