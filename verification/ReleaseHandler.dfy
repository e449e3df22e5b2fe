/** The cancel and batch handlers: credit frames are loaded, open orders released one by one,
    retired ones closed, and pool credit flushed; no guard around them can fire. */
module ReleaseHandler {
  import opened Exact
  import opened Rules
  import opened Sums
  import opened State
  import opened Settlement
  import opened InFlight
  import opened Matching
  import opened Chain
  import opened Exchange
  import opened Placing
  import opened Completion
  import opened Releases
  import opened Fills
  import opened Guards
  import opened Session

  // ------------------------------------------------------ one order at a time

  /** The batch after its first n orders, in the handler's order: each released, then closed. */
  ghost function Handled(b: Book, keys: seq<OrderKey>, n: nat, retire: bool): (r: Book)
    requires n <= |keys|
  {
    if n == 0 then b else
    var r := ReleaseNext(Handled(b, keys, n - 1, retire), keys[n - 1]);
    if retire then RemoveOrder(r, keys[n - 1]) else r
  }

  lemma RemoveBesideRelease(b: Book, key: OrderKey, other: OrderKey)
    requires key != other
    ensures RemoveOrder(ReleaseNext(b, key), other) == ReleaseNext(RemoveOrder(b, other), key)
  {
    hide OrderTerms.Asset, Post;
    if key in b.orders && b.orders[key].status == LIVE && key.owner in b.wallets
       && b.orders[key].terms.Asset() < ASSETS {
      var o := b.orders[key];
      PostBesideOrders(b, other, key.owner, o.terms.Asset(), o.reserved);
      assert b.orders[key := ClosedOrder(o)] - {other} == (b.orders - {other})[key := ClosedOrder(o)];
    }
  }

  lemma PostBesideOrders(b: Book, other: OrderKey, owner: Pubkey, asset: nat, amount: int)
    requires owner in b.wallets && asset < ASSETS
    ensures Post(RemoveOrder(b, other), owner, asset, amount) == RemoveOrder(Post(b, owner, asset, amount), other)
  {
  }

  lemma {:induction false} RemoveEachBeside(b: Book, keys: seq<OrderKey>, n: nat, key: OrderKey)
    requires n <= |keys| && forall i | 0 <= i < n :: keys[i] != key
    ensures RemoveEach(ReleaseNext(b, key), keys, n) == ReleaseNext(RemoveEach(b, keys, n), key)
  {
    hide ReleaseNext, RemoveOrder;
    if n > 0 {
      RemoveEachBeside(b, keys, n - 1, key);
      RemoveBesideRelease(RemoveEach(b, keys, n - 1), key, keys[n - 1]);
    }
  }

  /** Handling each order in turn is releasing all of them, then closing all of them. */
  lemma {:induction false} HandledInTurn(b: Book, keys: seq<OrderKey>, n: nat, retire: bool)
    requires n <= |keys| && Distinct(keys)
    ensures Handled(b, keys, n, retire)
         == if retire then RemoveEach(ReleaseEach(b, keys, n), keys, n) else ReleaseEach(b, keys, n)
  {
    hide ReleaseNext, RemoveOrder;
    if n > 0 {
      HandledInTurn(b, keys, n - 1, retire);
      RemoveEachBeside(ReleaseEach(b, keys, n - 1), keys, n - 1, keys[n - 1]);
    }
  }

  // --------------------------------------------------------------- room and guards

  lemma HandledKeeps(b: Book, keys: seq<OrderKey>, n: nat, retire: bool, frames: seq<Frame>)
    requires n <= |keys| && Distinct(keys) && Sound(b) && Framed(b, frames) && Refundable(b, frames, keys)
    ensures var r := Handled(b, keys, n, retire);
            && Sound(r) && Framed(r, frames) && (FramesIn(b, frames) ==> FramesIn(r, frames))
            && forall a | 0 <= a < ASSETS :: r.ledgers.Liability(a) == b.ledgers.Liability(a)
  {
    hide Sound, Framed, Refundable, Ledgers.Liability, Handled, ReleaseEach, RemoveEach;
    HandledInTurn(b, keys, n, retire);
    ReleaseEachKeeps(b, keys, n, frames);
    var released := ReleaseEach(b, keys, n);
    if retire {
      RemoveEachKeeps(released, keys, n);
      FramedWallets(released, RemoveEach(released, keys, n), frames);
    }
  }

  lemma {:induction false} KeysStay(b: Book, keys: seq<OrderKey>, n: nat, retire: bool, key: OrderKey)
    requires n <= |keys| && key in b.orders && forall i | 0 <= i < n :: keys[i] != key
    ensures var r := Handled(b, keys, n, retire);
            key in r.orders && r.orders[key] == b.orders[key]
  {
    if n > 0 {
      KeysStay(b, keys, n - 1, retire, key);
    }
  }

  /** Releasing an order of sound books finds what it takes, and leaves it completed. */
  lemma NextHasRoom(b: Book, key: OrderKey, frames: seq<Frame>)
    requires Sound(b) && Framed(b, frames) && Refundable(b, frames, [key]) && key in b.orders
    ensures b.orders[key].status == LIVE ==> ReleaseRoom(b, key) && ReleaseNext(b, key) == Release(b, key)
    ensures b.orders[key].status != LIVE ==> ReleaseNext(b, key) == b
    ensures Completed(ReleaseNext(b, key), key)
  {
    hide Core, Backed, Bounded, Framed, Release, ReleaseRoom, OrderTerms.Asset, ReleaseNext;
    ReleaseNextKeeps(b, key, frames);
    if b.orders[key].status == LIVE {
      ReleaseHasRoom(b, key);
      LiveOrder(b, key);
      ReleasesLive(b, key);
    } else {
      SkipsCompleted(b, key);
    }
    ReleasedIsCompleted(ReleaseNext(b, key), key);
  }

  lemma ReleasesLive(b: Book, key: OrderKey)
    requires Core(b) && key in b.orders && b.orders[key].status == LIVE && b.orders[key].terms.Asset() < ASSETS
    ensures key.owner in b.wallets && ReleaseNext(b, key) == Release(b, key) && key in ReleaseNext(b, key).orders
  {
    hide Release, OrderTerms.Asset, OrdersOk, NonNegative;
  }

  lemma SkipsCompleted(b: Book, key: OrderKey)
    requires key in b.orders && b.orders[key].status != LIVE
    ensures ReleaseNext(b, key) == b
  {
  }

  /** What the batch requires of an order it is done with. */
  predicate Completed(b: Book, key: OrderKey) {
    && key in b.orders && (b.orders[key].status == FILLED || b.orders[key].status == CANCELLED)
    && b.orders[key].remaining == 0 && b.orders[key].reserved == 0 && b.orders[key].openNotional == 0
  }

  lemma ReleasedIsCompleted(b: Book, key: OrderKey)
    requires Core(b) && key in b.orders && b.orders[key].status != LIVE
    ensures Completed(b, key)
  {
    hide Balanced, NonNegative;
    assert OrderOk(b.market, key, b.orders[key]);
  }

  lemma {:induction false} StillToRelease(b: Book, keys: seq<OrderKey>, i: nat, retire: bool, frames: seq<Frame>)
    requires i < |keys| && Distinct(keys) && Refundable(b, frames, keys) && keys[i] in b.orders
    ensures var r := Handled(b, keys, i, retire);
            keys[i] in r.orders && Refundable(r, frames, [keys[i]])
  {
    hide Handled;
    KeysStay(b, keys, i, retire, keys[i]);
    assert keys[i] in keys;
  }

  // ------------------------------------------------------------------ the handlers

  /** The books of a market as the batch finds and leaves them. */
  lemma BatchFacts(s: Chain, id: Pubkey, frames: seq<Frame>)
    requires Inv(s) && id in s.books && FramesOk(s.credits, s.books[id], frames)
    ensures var b := s.books[id];
            var available := Available(s.credits, b, frames);
            && FramesIn(b, frames) && Distinct(frames) && Core(b) && Drained(b) && EmptyUnderlying(b)
            && (forall x | x in available :: x >= 0)
            && var h := HydrateAll(b, frames, available, |frames|);
            && Bounded(h) && Sound(h) && Framed(h, frames) && FramesIn(h, frames)
            && h.orders == b.orders && h.market == b.market
  {
    hide Inv, Core, Backed, Bounded, Framed, Ledgers.Liability, HydrateAll, Drained, EmptyUnderlying, Available;
    InvBook(s, id);
    BookFacts(s.books[id]);
    FramesAreIn(s.credits, s.books[id], frames);
    AvailableNonNegative(s, id, frames);
    HydratedKeeps(s, id, frames);
  }

  lemma BookFacts(b: Book)
    requires BookOk(b)
    ensures Core(b) && Drained(b) && EmptyUnderlying(b)
  {
    hide Balanced, OrdersOk, NonNegative, Drained, EmptyUnderlying, Backed, LegsOk, LifecycleOk, ExposureCapped,
      UnlistedEmpty, OnlyResting;
    DrainedPasses(b);
  }

  lemma AvailableNonNegative(s: Chain, id: Pubkey, frames: seq<Frame>)
    requires Inv(s) && id in s.books && FramesOk(s.credits, s.books[id], frames)
    ensures forall x | x in Available(s.credits, s.books[id], frames) :: x >= 0
  {
    hide BooksOk, PoolsBalanced;
    forall x | x in Available(s.credits, s.books[id], frames)
      ensures x >= 0
    {
      var i :| 0 <= i < |frames| && Available(s.credits, s.books[id], frames)[i] == x;
      assert frames[i] in frames;
    }
  }

  /** Releases and retires a batch of orders on a copy of the market's accounts. */
  method ProcessBatch(s: Chain, id: Pubkey, frames: seq<Frame>, keys: seq<OrderKey>, retire: bool)
    returns (b: Book, credits: map<CreditKey, int>)
    requires Inv(s) && id in s.books && FramesOk(s.credits, s.books[id], frames)
             && Refundable(s.books[id], frames, keys)
    requires Distinct(keys) && forall k | k in keys :: k in s.books[id].orders
    ensures s.(books := s.books[id := b], credits := credits) == Processed(s, id, frames, keys, retire)
  {
    hide Inv, Core, Bounded, Framed, HydrateAll, Drained, EmptyUnderlying, Available, Sound, Refundable, FramesOk,
      FramesIn, Handled, ReleaseEach, RemoveEach, FlushAll, PutBack, AllFlushed, Distinct, Ledgers.Liability,
      Liabilities;
    BatchFacts(s, id, frames);
    var session := new Session(s.books[id]);
    assert EmptyUnderlying(session.Image());
    session.HydrateFrames(frames, Available(s.credits, s.books[id], frames));
    ghost var h := session.Image();
    SameOrders(s.books[id], h, frames, keys);
    var before := Liabilities(session.Image());
    HandleOrders(session, keys, retire, frames);
    BatchConserves(h, keys, retire, frames);
    assert Liabilities(session.Image()) == before;
    ghost var done := session.Image();
    credits := session.FlushFrames(frames, s.credits);
    BatchFlushes(h, keys, retire, frames);
    assert EmptyUnderlying(session.Image());
    b := session.Image();
    BatchIsHandled(s, id, frames, keys, retire);
  }

  lemma BatchConserves(h: Book, keys: seq<OrderKey>, retire: bool, frames: seq<Frame>)
    requires Distinct(keys) && Sound(h) && Framed(h, frames) && Refundable(h, frames, keys) && FramesIn(h, frames)
    ensures var r := Handled(h, keys, |keys|, retire);
            && Liabilities(r) == Liabilities(h) && Core(r) && Framed(r, frames) && FramesIn(r, frames)
  {
    hide Core, Framed, Refundable, Handled, Ledgers.Liability, Liabilities, Distinct, Backed, Bounded, FramesIn;
    HandledKeeps(h, keys, |keys|, retire, frames);
    SameLiabilities(h, Handled(h, keys, |keys|, retire));
  }

  lemma BatchFlushes(h: Book, keys: seq<OrderKey>, retire: bool, frames: seq<Frame>)
    requires Distinct(keys) && Sound(h) && Framed(h, frames) && Refundable(h, frames, keys) && FramesIn(h, frames)
    ensures var r := Handled(h, keys, |keys|, retire);
            FramesIn(r, frames) && EmptyUnderlying(FlushAll(r, frames, |frames|))
  {
    hide Core, Framed, Refundable, Handled, Distinct, FramesIn, FlushAll, EmptyUnderlying, Sound;
    BatchConserves(h, keys, retire, frames);
    FlushedIsEmpty(Handled(h, keys, |keys|, retire), frames);
  }

  lemma FlushedIsEmpty(b: Book, frames: seq<Frame>)
    requires Core(b) && FramesIn(b, frames) && Framed(b, frames)
    ensures EmptyUnderlying(FlushAll(b, frames, |frames|))
  {
    hide Balanced, OrdersOk, TermsOk, NonNegative, FlushAll, Framed, EmptyUnderlying, EmptyWallet, Drained;
    FlushDrains(b, frames);
    FlushKeeps(b, frames, |frames|);
    DrainedPasses(FlushAll(b, frames, |frames|));
  }

  lemma BatchIsHandled(s: Chain, id: Pubkey, frames: seq<Frame>, keys: seq<OrderKey>, retire: bool)
    requires id in s.books && FramesOk(s.credits, s.books[id], frames) && Distinct(keys)
    requires FramesIn(s.books[id], frames)
    ensures Batch(s, id, frames, keys, retire)
         == Handled(HydrateAll(s.books[id], frames, Available(s.credits, s.books[id], frames), |frames|), keys, |keys|,
                    retire)
  {
    hide Handled, HydrateAll, Available, ReleaseEach, RemoveEach, FramesOk, Distinct;
    HandledInTurn(HydrateAll(s.books[id], frames, Available(s.credits, s.books[id], frames), |frames|), keys, |keys|,
                  retire);
  }

  /** Each open order of the batch is released, each retired one closed. */
  method HandleOrders(session: Session, keys: seq<OrderKey>, retire: bool, ghost frames: seq<Frame>)
    requires Distinct(keys) && Sound(session.Image()) && Framed(session.Image(), frames)
             && Refundable(session.Image(), frames, keys)
    requires forall k | k in keys :: k in session.orders
    modifies session`wallets, session`ledgers, session`orders
    ensures session.Image() == Handled(old(session.Image()), keys, |keys|, retire)
  {
    hide Sound, Framed, Refundable, Distinct, ReleaseNext, Release, ReleaseRoom, Handled, Ledgers.Liability;
    ghost var h := session.Image();
    HandledStarts(h, keys, retire);
    for i := 0 to |keys|
      invariant session.Image() == Handled(h, keys, i, retire)
    {
      HandledKeeps(h, keys, i, retire, frames);
      assert keys[i] in keys;
      StillToRelease(h, keys, i, retire, frames);
      NextHasRoom(session.Image(), keys[i], frames);
      HandledNext(h, keys, i, retire);
      if session.orders[keys[i]].status == LIVE {
        session.ReleaseOrder(keys[i]);
      }
      assert Completed(session.Image(), keys[i]);
      if retire {
        session.orders := session.orders - {keys[i]};
      }
    }
  }

  lemma HandledStarts(b: Book, keys: seq<OrderKey>, retire: bool)
    ensures Handled(b, keys, 0, retire) == b
  {
  }

  lemma HandledNext(b: Book, keys: seq<OrderKey>, i: nat, retire: bool)
    requires i < |keys|
    ensures var r := ReleaseNext(Handled(b, keys, i, retire), keys[i]);
            Handled(b, keys, i + 1, retire) == if retire then RemoveOrder(r, keys[i]) else r
  {
    hide ReleaseNext, RemoveOrder;
  }
}
