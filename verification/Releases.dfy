/** Cancelling and retiring orders: reservations flow back to where they came from, and a
    retired order's identity is spent for good. */
module Releases {
  import opened Exact
  import opened Rules
  import opened Sums
  import opened Conversion
  import opened State
  import opened Settlement
  import opened InFlight
  import opened Matching
  import opened Chain
  import opened Exchange
  import opened Placing
  import opened Completion

  // ----------------------------------------------------------------- the batch

  /** An open order is released; a completed one is left alone. */
  ghost function ReleaseNext(b: Book, key: OrderKey): (r: Book)
    ensures SameAccounts(b, r) && r.ledgers.backing == b.ledgers.backing
  {
    if key in b.orders && b.orders[key].status == LIVE && key.owner in b.wallets && b.orders[key].terms.Asset() < ASSETS
    then Release(b, key) else b
  }

  ghost function ReleaseEach(b: Book, keys: seq<OrderKey>, n: nat): (r: Book)
    requires n <= |keys|
    ensures SameAccounts(b, r) && r.ledgers.backing == b.ledgers.backing
  {
    if n == 0 then b else ReleaseNext(ReleaseEach(b, keys, n - 1), keys[n - 1])
  }

  ghost function RemoveEach(b: Book, keys: seq<OrderKey>, n: nat): (r: Book)
    requires n <= |keys|
    ensures r == b.(orders := r.orders)
    ensures forall k | k in r.orders :: k in b.orders && r.orders[k] == b.orders[k]
  {
    if n == 0 then b else RemoveOrder(RemoveEach(b, keys, n - 1), keys[n - 1])
  }

  /** Where released reservations go: a pool-funded one needs its owner's credit frame. */
  ghost predicate Refundable(b: Book, frames: seq<Frame>, keys: seq<OrderKey>) {
    forall k | k in keys && k in b.orders && b.orders[k].status == LIVE ::
      b.orders[k].terms.funding == 0 && b.orders[k].reserved != 0 ==>
        Frame(k.owner, b.orders[k].terms.Collateral()) in frames
  }

  ghost predicate Sound(b: Book) {
    Core(b) && Backed(b, NO_AMOUNTS) && Bounded(b)
  }

  /** What releasing leaves: no liability moved, nobody more exposed, nothing newly open. */
  ghost predicate Lighter(b: Book, r: Book) {
    && NoMoreExposure(b, r) && r.orders.Keys == b.orders.Keys
    && (OnlyResting(b) ==> OnlyResting(r))
    && (forall k | k in b.orders && r.orders[k] != b.orders[k] :: r.orders[k].status != LIVE)
    && forall a | 0 <= a < ASSETS :: r.ledgers.Liability(a) == b.ledgers.Liability(a)
  }

  lemma LighterTransitive(a: Book, b: Book, c: Book)
    requires Lighter(a, b) && Lighter(b, c)
    ensures Lighter(a, c)
  {
    hide Ledgers.Liability, OnlyResting, NoMoreExposure;
    ExposureTransitive(a, b, c);
  }

  lemma ReleaseNextKeeps(b: Book, key: OrderKey, frames: seq<Frame>)
    requires Sound(b) && Framed(b, frames) && Refundable(b, frames, [key])
    ensures var r := ReleaseNext(b, key);
            && Sound(r) && Framed(r, frames) && Lighter(b, r)
            && (key in r.orders ==> r.orders[key].status != LIVE)
  {
    hide Core, Backed, Bounded, Framed, Ledgers.Liability, Release, OrderTerms.Asset, OrderTerms.Collateral,
      NoMoreExposure;
    if key in b.orders && b.orders[key].status == LIVE {
      assert key in [key];
      LiveOrder(b, key);
      ReleaseKeeps(Flight(b, NO_AMOUNTS), key);
      ReleaseExposes(b, key);
    } else {
      StillExposed(b);
    }
  }

  lemma StillExposed(b: Book)
    ensures NoMoreExposure(b, b)
  {
  }

  lemma ReleaseExposes(b: Book, key: OrderKey)
    requires Core(b) && key in b.orders && key.owner in b.wallets && b.orders[key].terms.Asset() < ASSETS
    requires b.orders[key].status == LIVE
    ensures NoMoreExposure(b, Release(b, key))
  {
    hide OrderTerms.Asset, Balanced, NonNegative, Caps.ValidateOrder, Caps.Validate;
    assert OrderOk(b.market, key, b.orders[key]);
  }

  /** Releasing a batch keeps the books and moves no liability: every released unit becomes its
      owner's available credit. */
  lemma {:induction false} ReleaseEachKeeps(b: Book, keys: seq<OrderKey>, n: nat, frames: seq<Frame>)
    requires n <= |keys| && Sound(b) && Framed(b, frames) && Refundable(b, frames, keys)
    ensures var r := ReleaseEach(b, keys, n);
            && Sound(r) && Framed(r, frames) && Lighter(b, r)
            && (forall i | 0 <= i < n :: keys[i] in r.orders ==> r.orders[keys[i]].status != LIVE)
  {
    hide Sound, Framed, ReleaseNext, Lighter, Refundable;
    if n == 0 {
      StillLighter(b);
    } else {
      ReleaseEachKeeps(b, keys, n - 1, frames);
      var before, key := ReleaseEach(b, keys, n - 1), keys[n - 1];
      StillRefundable(b, before, frames, keys, n - 1);
      ReleaseNextKeeps(before, key, frames);
      LighterTransitive(b, before, ReleaseEach(b, keys, n));
      StaysClosed(before, ReleaseEach(b, keys, n));
    }
  }

  lemma StillLighter(b: Book)
    ensures Lighter(b, b)
  {
    StillExposed(b);
  }

  lemma StaysClosed(b: Book, r: Book)
    requires Lighter(b, r)
    ensures forall k | k in b.orders && b.orders[k].status != LIVE :: r.orders[k].status != LIVE
  {
  }

  lemma StillRefundable(b: Book, r: Book, frames: seq<Frame>, keys: seq<OrderKey>, i: nat)
    requires Lighter(b, r) && Refundable(b, frames, keys) && i < |keys|
    ensures Refundable(r, frames, [keys[i]])
  {
    forall k | k in [keys[i]] && k in r.orders && r.orders[k].status == LIVE
      ensures k in keys && r.orders[k] == b.orders[k]
    {
    }
  }

  lemma RemoveOrderKeeps(b: Book, key: OrderKey)
    requires Sound(b) && (key in b.orders ==> b.orders[key].status != LIVE)
    ensures var r := RemoveOrder(b, key);
            && Sound(r) && r.wallets == b.wallets && r.ledgers == b.ledgers
            && (OnlyResting(b) ==> OnlyResting(r))
  {
    hide Caps.ValidateOrder, Caps.Validate, Ceil, Balanced, Ledgers.Liability, Market.Payouts;
    if key in b.orders {
      assert OrderOk(b.market, key, b.orders[key]);
    }
    RemoveOrderKeepsBalance(b, key);
    var r := RemoveOrder(b, key);
    forall k | k in r.orders
      ensures OrderOk(r.market, k, r.orders[k])
    {
      assert OrderOk(b.market, k, b.orders[k]);
    }
    StillBacked(b, r, NO_AMOUNTS);
  }

  lemma {:induction false} RemoveEachKeeps(b: Book, keys: seq<OrderKey>, n: nat)
    requires n <= |keys| && Sound(b)
    requires forall i | 0 <= i < n :: keys[i] in b.orders ==> b.orders[keys[i]].status != LIVE
    ensures var r := RemoveEach(b, keys, n);
            && Sound(r) && r.wallets == b.wallets && r.ledgers == b.ledgers
            && (OnlyResting(b) ==> OnlyResting(r))
            && r.orders.Keys == b.orders.Keys - (set i | 0 <= i < n :: keys[i])
  {
    hide Sound, OnlyResting;
    if n > 0 {
      RemoveEachKeeps(b, keys, n - 1);
      RemoveOrderKeeps(RemoveEach(b, keys, n - 1), keys[n - 1]);
    }
  }

  // ---------------------------------------------------------- the deployment

  /** Released and, if the batch retires them, closed. */
  ghost function Cleared(b: Book, keys: seq<OrderKey>, retire: bool): (r: Book)
    ensures r.wallets.Keys == b.wallets.Keys && r.market == b.market && r.tokens == b.tokens
    ensures r.ledgers.backing == b.ledgers.backing
  {
    var released := ReleaseEach(b, keys, |keys|);
    if retire then RemoveEach(released, keys, |keys|) else released
  }

  lemma ClearedKeeps(b: Book, keys: seq<OrderKey>, retire: bool, frames: seq<Frame>)
    requires Sound(b) && Framed(b, frames) && Refundable(b, frames, keys)
    ensures var r := Cleared(b, keys, retire);
            && Sound(r) && Framed(r, frames) && NoMoreExposure(b, r)
            && (OnlyResting(b) ==> OnlyResting(r))
            && forall a | 0 <= a < ASSETS :: r.ledgers.Liability(a) == b.ledgers.Liability(a)
  {
    hide Sound, Framed, Ledgers.Liability, Refundable, ReleaseEach, RemoveEach, OnlyResting;
    ReleaseEachKeeps(b, keys, |keys|, frames);
    if retire {
      var released := ReleaseEach(b, keys, |keys|);
      RemoveEachKeeps(released, keys, |keys|);
      FramedWallets(released, RemoveEach(released, keys, |keys|), frames);
    }
  }

  /** The batch in flight: frames loaded, orders released, and closed if they are retired. */
  ghost function Batch(s: Chain, id: Pubkey, frames: seq<Frame>, keys: seq<OrderKey>, retire: bool): (b: Book)
    requires id in s.books && FramesOk(s.credits, s.books[id], frames)
    ensures b.wallets.Keys == s.books[id].wallets.Keys && b.market == s.books[id].market
            && b.tokens == s.books[id].tokens
    ensures b.ledgers.backing == s.books[id].ledgers.backing && FramesIn(b, frames)
  {
    var b := s.books[id];
    Cleared(HydrateAll(b, frames, Available(s.credits, b, frames), |frames|), keys, retire)
  }

  ghost function Processed(s: Chain, id: Pubkey, frames: seq<Frame>, keys: seq<OrderKey>, retire: bool): (c: Chain)
    requires id in s.books && FramesOk(s.credits, s.books[id], frames)
    ensures c == s.(books := c.books, credits := c.credits) && id in c.books && c.books == s.books[id := c.books[id]]
  {
    hide Batch, FramesOk;
    var (b, credits) := Flushing(Batch(s, id, frames, keys, retire), frames, s.credits, s.books[id].market);
    s.(books := s.books[id := b], credits := credits)
  }

  lemma BatchKeeps(s: Chain, id: Pubkey, frames: seq<Frame>, keys: seq<OrderKey>, retire: bool)
    requires Inv(s) && id in s.books && FramesOk(s.credits, s.books[id], frames)
             && Refundable(s.books[id], frames, keys)
    ensures var b := Batch(s, id, frames, keys, retire);
            var h := HydrateAll(s.books[id], frames, Available(s.credits, s.books[id], frames), |frames|);
            && Sound(b) && Framed(b, frames) && OnlyResting(b) && ExposureCapped(b) && UnlistedEmpty(b)
            && forall c | 0 <= c < COLLATERALS ::
               b.ledgers.Liability(Underlying(c)) == h.ledgers.Liability(Underlying(c))
  {
    hide Inv, Core, Backed, Bounded, Framed, Ledgers.Liability, FramesOk, BookOk, Refundable, Cleared, HydrateAll,
      OnlyResting, LegsOk, LifecycleOk;
    InvBook(s, id);
    HydratedKeeps(s, id, frames);
    var b := s.books[id];
    FramesAreIn(s.credits, b, frames);
    var h := HydrateAll(b, frames, Available(s.credits, b, frames), |frames|);
    BookParts(b);
    SameOrders(b, h, frames, keys);
    ClearedKeeps(h, keys, retire, frames);
    HydrateExposesNobody(b, frames, Available(s.credits, b, frames));
  }

  lemma FramedWallets(b: Book, r: Book, frames: seq<Frame>)
    requires Framed(b, frames) && r.wallets == b.wallets
    ensures Framed(r, frames)
  {
  }

  lemma SameOrders(b: Book, r: Book, frames: seq<Frame>, keys: seq<OrderKey>)
    requires r.orders == b.orders
    ensures Refundable(b, frames, keys) ==> Refundable(r, frames, keys)
    ensures OnlyResting(b) ==> OnlyResting(r)
  {
  }

  lemma HydrateExposesNobody(b: Book, frames: seq<Frame>, available: seq<int>)
    requires |frames| == |available| && FramesIn(b, frames)
    ensures forall o | o in b.wallets ::
            HydrateAll(b, frames, available, |frames|).wallets[o].openNotional == b.wallets[o].openNotional
    ensures HydrateAll(b, frames, available, |frames|).ledgers.openNotional == b.ledgers.openNotional
  {
    hide HydrateAll;
    forall o | o in b.wallets
      ensures HydrateAll(b, frames, available, |frames|).wallets[o].openNotional == b.wallets[o].openNotional
    {
      HydrateExposes(b, frames, available, |frames|, o);
    }
    HydrateCounts(b, frames, available, |frames|);
  }

  lemma {:induction false} HydrateCounts(b: Book, frames: seq<Frame>, available: seq<int>, n: nat)
    requires n <= |frames| == |available| && FramesIn(b, frames)
    ensures HydrateAll(b, frames, available, n).ledgers.openNotional == b.ledgers.openNotional
  {
    if n > 0 {
      HydrateCounts(b, frames, available, n - 1);
      assert frames[n - 1] in frames;
    }
  }

  lemma ProcessedConserves(s: Chain, id: Pubkey, frames: seq<Frame>, keys: seq<OrderKey>, retire: bool, mint: Pubkey)
    requires Inv(s) && id in s.books && FramesOk(s.credits, s.books[id], frames)
             && Refundable(s.books[id], frames, keys)
    ensures var after := Processed(s, id, frames, keys, retire);
            SumBy(after.credits, CreditIn(mint)) + Demand(after.books[id], mint)
            == SumBy(s.credits, CreditIn(mint)) + Demand(s.books[id], mint)
  {
    hide Inv, Sound, Framed, Ledgers.Liability, BookOk, Refundable, Batch, HydrateAll, OnlyResting, Demand, FlushAll,
      LegsOk, KeyOf, Core;
    InvBook(s, id);
    ListedMintsDiffer(s.books[id].market);
    BatchKeeps(s, id, frames, keys, retire);
    RoundTripConserves(s.credits, s.books[id], frames, Batch(s, id, frames, keys, retire), mint);
  }

  /** Cancelling or retiring any batch keeps every ledger: reservations return in full. */
  lemma ProcessKeepsInv(s: Chain, id: Pubkey, frames: seq<Frame>, keys: seq<OrderKey>, retire: bool)
    requires Inv(s) && id in s.books && FramesOk(s.credits, s.books[id], frames)
             && Refundable(s.books[id], frames, keys)
    ensures Inv(Processed(s, id, frames, keys, retire))
  {
    hide BookOk, Demand, FlushAll, Batch, PutBack, AccountsOk, BooksOk, Refundable, FramesOk;
    ProcessedSound(s, id, frames, keys, retire);
    var after := Processed(s, id, frames, keys, retire);
    BooksStay(s, id, after.books[id], after);
    forall p | p in after.pools
      ensures after.pools[p].liability == SumBy(after.credits, CreditIn(p)) + SumBy(after.books, DemandOf(p))
    {
      ProcessedConserves(s, id, frames, keys, retire, p);
      SumUpdate(s.books, id, after.books[id], DemandOf(p));
    }
  }

  lemma ProcessedSound(s: Chain, id: Pubkey, frames: seq<Frame>, keys: seq<OrderKey>, retire: bool)
    requires Inv(s) && id in s.books && FramesOk(s.credits, s.books[id], frames)
             && Refundable(s.books[id], frames, keys)
    ensures var after := Processed(s, id, frames, keys, retire);
            BookOk(after.books[id]) && AccountsOk(after) && after.credits.Keys == s.credits.Keys
  {
    hide PoolsBalanced, BooksOk, Framed, Ledgers.Liability, BookOk, Refundable, Batch, FlushAll, Core, Backed, KeyOf,
      OnlyResting, PutBack, AllFlushed, LegsOk, LifecycleOk, ExposureCapped, UnlistedEmpty, Bounded;
    InvBook(s, id);
    BookParts(s.books[id]);
    ListedMintsDiffer(s.books[id].market);
    BatchKeeps(s, id, frames, keys, retire);
    var b := Batch(s, id, frames, keys, retire);
    FlushedBookOk(b, frames);
    FlushedNonNegative(b, frames);
    PutBackKeepsSign(s.credits, s.books[id].market, frames, AllFlushed(b, frames), |frames|);
    PutBackAt(s.credits, s.books[id], frames, AllFlushed(b, frames), |frames|, CreditKey(NOBODY, NOBODY));
  }
}
