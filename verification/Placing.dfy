/** The state a placement leaves, as the stages the handler goes through, and why no stage
    can break the books of any market or the pools they share. */
module Placing {
  import opened Exact
  import opened Rules
  import opened Sums
  import opened Conversion
  import opened State
  import opened Settlement
  import opened InFlight
  import opened Matching
  import opened Chain
  import opened Exchange

  // ------------------------------------------------------------------ stages

  /** Pool credit of every presented frame enters its owner's wallet. */
  ghost function Hydrated(s: Chain, id: Pubkey, r: Request): (b: Book)
    requires id in s.books && FramesOk(s.credits, s.books[id], r.frames)
    ensures b.wallets.Keys == s.books[id].wallets.Keys && b.orders == s.books[id].orders
    ensures b.market == s.books[id].market && b.tokens == s.books[id].tokens
    ensures b.ledgers.backing == s.books[id].ledgers.backing && b.ledgers.fees == s.books[id].ledgers.fees
  {
    var b := s.books[id];
    HydrateAll(b, r.frames, Available(s.credits, b, r.frames), |r.frames|)
  }

  /** The taker's order as it opens. */
  ghost function TakerOrder(s: Chain, id: Pubkey, r: Request): Order
    requires Fillable(s, id, r)
  {
    hide Entry, Reviewed, ReservedFor, AvailableTo, WellFilled;
    EntryFacts(s, id, r);
    OpenedOrder(r.terms, s.books[id].market.sequence[r.terms.branch], ReservedFor(s.books[id].market, r).value,
                Ceil(r.terms.quantity, r.terms.price))
  }

  /** The taker's order opens: its reservation leaves its owner's available credit. */
  ghost function Opened(s: Chain, id: Pubkey, r: Request): (b: Book)
    requires Fillable(s, id, r)
    ensures b.wallets.Keys == s.books[id].wallets.Keys && b.tokens == s.books[id].tokens
    ensures b.orders == s.books[id].orders[r.Key() := TakerOrder(s, id, r)]
    ensures r.terms.branch < 2 && s.books[id].market.sequence[r.terms.branch] < U64_MAX
    ensures b.market == s.books[id].market.(
              sequence := s.books[id].market.sequence[r.terms.branch := s.books[id].market.sequence[r.terms.branch]
                + 1])
    ensures r.owner in b.wallets && r.terms.Asset() < ASSETS
    ensures FramesOk(s.credits, s.books[id], r.frames)
  {
    hide Entry, Reviewed, ReservedFor, AvailableTo, WellFilled;
    EntryFacts(s, id, r);
    FramesLoad(s, id, r);
    TakerTerms(s, id, r);
    Reserve(Hydrated(s, id, r), r.owner, r.terms, ReservedFor(s.books[id].market, r).value,
            Ceil(r.terms.quantity, r.terms.price))
  }

  /** The surviving makers as trades, in plan order. */
  ghost function Trades(s: Chain, id: Pubkey, r: Request): seq<Trade>
    requires id in s.books && Sized(s.books[id].orders) && |r.makers| == |r.plan.legs|
  {
    TradesOf(s.books[id].market, s.books[id].orders, s.config, r, Picks(s, id, r))
  }

  ghost function Settled(s: Chain, id: Pubkey, r: Request): (f: Flight)
    requires Fillable(s, id, r)
    ensures SameAccounts(Opened(s, id, r), f.book)
  {
    SettleAll(Flight(Opened(s, id, r), NO_AMOUNTS), Trades(s, id, r))
  }

  /** An immediate-or-cancel order releases what it could not fill. */
  ghost function Finished(b: Book, r: Request): (f: Book)
    requires r.Key() in b.orders && b.orders[r.Key()].terms == r.terms
    requires r.owner in b.wallets && r.terms.Asset() < ASSETS
    ensures f.wallets.Keys == b.wallets.Keys && f.market == b.market && f.tokens == b.tokens
    ensures f.orders.Keys == b.orders.Keys
  {
    if r.terms.tif == 1 && b.orders[r.Key()].remaining != 0 then Release(b, r.Key()) else b
  }

  /** The placement is recorded in its branch's ring, under the side it rests on if it does. */
  ghost function Recorded(b: Book, r: Request, sequence: nat): (f: Book)
    requires r.terms.branch < 2 && Ticks(b.market, r.terms.price) <= U64_MAX
    ensures f == b.(market := b.market.(recent := f.market.recent))
  {
    var slot := r.terms.branch * RECENT + sequence % RECENT;
    var side := if Resting(b, r) then r.terms.side else SIDE_NONE;
    b.(market := b.market.(recent := b.market.recent[slot := Placement(Ticks(b.market, r.terms.price), side)]))
  }

  ghost predicate Resting(b: Book, r: Request) {
    r.Key() in b.orders && b.orders[r.Key()].status == LIVE
  }

  // ------------------------------------------------------------- hydrating

  predicate Feeds(f: Frame, o: Pubkey, a: int) {
    f.owner == o && a == Underlying(f.collateral)
  }

  lemma PostMovesBalance(b: Book, owner: Pubkey, asset: nat, amount: int, o: Pubkey, a: nat)
    requires owner in b.wallets && asset < ASSETS && o in b.wallets && a < ASSETS
    ensures Post(b, owner, asset, amount).wallets[o].balances[a]
            == b.wallets[o].balances[a] + (if o == owner && a == asset then amount else 0)
  {
  }

  /** Balances no frame feeds stay as they were. */
  lemma {:induction false} HydrateSkips(b: Book, frames: seq<Frame>, available: seq<int>, n: nat, o: Pubkey, a: nat)
    requires n <= |frames| == |available| && FramesIn(b, frames) && o in b.wallets && a < ASSETS
    requires forall i | 0 <= i < n :: !Feeds(frames[i], o, a)
    ensures HydrateAll(b, frames, available, n).wallets[o].balances[a] == b.wallets[o].balances[a]
  {
    hide Post;
    if n > 0 {
      HydrateSkips(b, frames, available, n - 1, o, a);
      assert frames[n - 1] in frames && !Feeds(frames[n - 1], o, a);
      PostMovesBalance(HydrateAll(b, frames, available, n - 1), frames[n - 1].owner,
                       Underlying(frames[n - 1].collateral), available[n - 1], o, a);
    }
  }

  /** Each frame feeds its owner's wallet exactly what the credit account holds. */
  lemma {:induction false} HydrateFeeds(b: Book, frames: seq<Frame>, available: seq<int>, n: nat, i: nat)
    requires i < n <= |frames| == |available| && FramesIn(b, frames) && Distinct(frames) && Drained(b)
    ensures frames[i].owner in b.wallets && frames[i].collateral < COLLATERALS
    ensures HydrateAll(b, frames, available, n).wallets[frames[i].owner].balances[Underlying(frames[i].collateral)]
            == available[i]
  {
    hide Post;
    assert frames[i] in frames && frames[n - 1] in frames;
    var o, a := frames[i].owner, Underlying(frames[i].collateral);
    if i < n - 1 {
      HydrateFeeds(b, frames, available, n - 1, i);
      assert frames[i] != frames[n - 1];
    } else {
      forall j | 0 <= j < n - 1
        ensures !Feeds(frames[j], o, a)
      {
        assert frames[j] != frames[i];
      }
      HydrateSkips(b, frames, available, n - 1, o, a);
    }
    PostMovesBalance(HydrateAll(b, frames, available, n - 1), frames[n - 1].owner,
                     Underlying(frames[n - 1].collateral), available[n - 1], o, a);
  }

  lemma {:induction false} HydrateLeaves(b: Book, frames: seq<Frame>, available: seq<int>, n: nat, c: nat)
    requires n <= |frames| == |available| && FramesIn(b, frames) && c < COLLATERALS
    requires forall f | f in frames :: f.collateral != c
    ensures HydrateAll(b, frames, available, n).ledgers.Liability(Underlying(c)) == b.ledgers.Liability(Underlying(c))
  {
    hide Post, Ledgers.Liability;
    if n > 0 {
      HydrateLeaves(b, frames, available, n - 1, c);
      assert frames[n - 1] in frames;
      PostMovesLiability(HydrateAll(b, frames, available, n - 1), frames[n - 1].owner,
                         Underlying(frames[n - 1].collateral), available[n - 1], Underlying(c));
    }
  }

  lemma ShareFits(b: Book, mint: Pubkey, c: nat)
    requires Core(b) && c < COLLATERALS && c <= b.market.bases && b.market.mints[c] == mint
    ensures 0 <= b.ledgers.Liability(Underlying(c)) <= Demand(b, mint)
  {
    hide Ledgers.Liability, Balanced, OrdersOk, Caps.Validate;
    forall d | 0 <= d < COLLATERALS
      ensures b.ledgers.Liability(Underlying(d)) >= 0
    {
      LiabilityNonNegative(b, d);
    }
  }

  lemma LiabilityNonNegative(b: Book, c: nat)
    requires Core(b) && c < COLLATERALS
    ensures b.ledgers.Liability(Underlying(c)) >= 0
  {
    hide Balanced, OrdersOk, Caps.Validate;
    LedgersNonNegative(b, Underlying(c));
  }

  lemma DemandNonNegative(b: Book, mint: Pubkey)
    requires Core(b)
    ensures Demand(b, mint) >= 0
  {
    hide Ledgers.Liability, Core;
    forall d | 0 <= d < COLLATERALS
      ensures b.ledgers.Liability(Underlying(d)) >= 0
    {
      LiabilityNonNegative(b, d);
    }
  }

  /** One market's demand on a pool, with all the credit available in it, is within the pool. */
  lemma PoolHolds(s: Chain, id: Pubkey, mint: Pubkey)
    requires Inv(s) && id in s.books && mint in s.pools
    ensures SumBy(s.credits, CreditIn(mint)) + Demand(s.books[id], mint) <= s.pools[mint].liability <= U64_MAX
    ensures SumBy(s.credits, CreditIn(mint)) >= 0
  {
    hide Demand, Core, Backed, LegsOk, LifecycleOk, ExposureCapped, UnlistedEmpty, OnlyResting, Drained;
    forall k | k in s.books
      ensures DemandOf(mint)(k, s.books[k]) >= 0
    {
      assert BookOk(s.books[k]);
      DemandNonNegative(s.books[k], mint);
    }
    SumAtLeast(s.books, id, DemandOf(mint));
    SumNonNegative(s.credits, CreditIn(mint));
  }

  /** Nothing is owed in an unlisted collateral. */
  lemma UnlistedOwesNothing(b: Book, c: nat)
    requires BookOk(b) && b.market.bases < c < COLLATERALS
    ensures b.ledgers.Liability(Underlying(c)) == 0
  {
    hide LegsOk, LifecycleOk, ExposureCapped, OnlyResting, Backed, Caps.Validate, Caps.ValidateOrder, Ceil;
    DrainedMarket(b, c);
    forall k | k in b.orders
      ensures ReservedIn(Underlying(c))(k, b.orders[k]) == 0
    {
      assert OrderOk(b.market, k, b.orders[k]);
      CollateralListed(b.market, b.orders[k].terms);
    }
    SumZero(b.orders, ReservedIn(Underlying(c)));
  }

  lemma CollateralListed(m: Market, t: OrderTerms)
    requires OrderTermsOk(m, t)
    ensures t.Collateral() <= m.bases && t.Asset() < ASSETS
    ensures CollateralOf(t.Asset()) == t.Collateral()
  {
    hide Caps.ValidateOrder, BoundNonce;
    if t.side == 1 {
      assert SingleBase(t.bases).value in t.bases;
    }
  }

  /** What the frames draw of a mint is at most all the credit there is. */
  lemma DrawnWithinCredit(credits: map<CreditKey, int>, b: Book, frames: seq<Frame>, mint: Pubkey)
    requires FramesOk(credits, b, frames) && MintsDistinct(b.market)
    requires forall k | k in credits :: credits[k] >= 0
    ensures Drawn(b.market, frames, Available(credits, b, frames), mint, |frames|) <= SumBy(credits, CreditIn(mint))
  {
    var zeros := seq(|frames|, _ => 0);
    PutBackSum(credits, b, frames, zeros, mint, |frames|);
    ZerosDrawn(b.market, frames, zeros, mint, |frames|);
    var left := PutBack(credits, b.market, frames, zeros, |frames|);
    forall k | k in left
      ensures left[k] >= 0
    {
      PutBackAt(credits, b, frames, zeros, |frames|, k);
      PutBackKeepsSign(credits, b.market, frames, zeros, |frames|);
    }
    SumNonNegative(left, CreditIn(mint));
  }

  lemma {:induction false} ZerosDrawn(m: Market, frames: seq<Frame>, zeros: seq<int>, mint: Pubkey, n: nat)
    requires n <= |frames| == |zeros| && forall f | f in frames :: f.collateral < COLLATERALS
    requires forall z | z in zeros :: z == 0
    ensures Drawn(m, frames, zeros, mint, n) == 0
  {
    if n > 0 {
      ZerosDrawn(m, frames, zeros, mint, n - 1);
      assert zeros[n - 1] in zeros;
    }
  }

  lemma {:induction false} PutBackKeepsSign(credits: map<CreditKey, int>, m: Market, frames: seq<Frame>,
                                            values: seq<int>, n: nat)
    requires n <= |frames| == |values| && forall f | f in frames :: f.collateral < COLLATERALS
    requires forall k | k in credits :: credits[k] >= 0
    requires forall v | v in values :: v >= 0
    ensures forall k | k in PutBack(credits, m, frames, values, n) :: PutBack(credits, m, frames, values, n)[k] >= 0
  {
    if n > 0 {
      PutBackKeepsSign(credits, m, frames, values, n - 1);
      assert values[n - 1] in values;
    }
  }

  /** Hydrated books are sound: pool credit enters only where a frame takes it back, and no
      collateral's demand outgrows its pool. */
  lemma HydratedKeeps(s: Chain, id: Pubkey, frames: seq<Frame>)
    requires Inv(s) && id in s.books && FramesOk(s.credits, s.books[id], frames)
    ensures var b := s.books[id];
            var h := HydrateAll(b, frames, Available(s.credits, b, frames), |frames|);
            && Core(h) && Backed(h, NO_AMOUNTS) && Bounded(h) && Framed(h, frames)
            && forall a | 0 <= a < ASSETS && IsClaim(a) :: h.ledgers.Liability(a) == b.ledgers.Liability(a)
  {
    hide Core, Backed, LegsOk, LifecycleOk, ExposureCapped, UnlistedEmpty, OnlyResting, Framed, Ledgers.Liability,
      HydrateAll, PoolsBalanced, KeyOf, Drained, Market.Payouts;
    var b := s.books[id];
    var available := Available(s.credits, b, frames);
    forall x | x in available
      ensures x >= 0
    {
      var i :| 0 <= i < |frames| && available[i] == x;
      assert frames[i] in frames;
    }
    HydrateKeeps(b, frames, available, |frames|);
    var h := HydrateAll(b, frames, available, |frames|);
    StillBacked(b, h, NO_AMOUNTS);
    forall c | 0 <= c < COLLATERALS
      ensures h.ledgers.Liability(Underlying(c)) <= U64_MAX
    {
      if c <= b.market.bases {
        HydratedFits(s, id, frames, c);
      } else {
        forall f | f in frames
          ensures f.collateral != c
        {
        }
        HydrateLeaves(b, frames, available, |frames|, c);
        UnlistedOwesNothing(b, c);
      }
    }
  }

  lemma HydratedFits(s: Chain, id: Pubkey, frames: seq<Frame>, c: nat)
    requires Inv(s) && id in s.books && FramesOk(s.credits, s.books[id], frames)
    requires c < COLLATERALS && c <= s.books[id].market.bases
    requires Core(HydrateAll(s.books[id], frames, Available(s.credits, s.books[id], frames), |frames|))
    ensures HydrateAll(s.books[id], frames, Available(s.credits, s.books[id], frames), |frames|)
              .ledgers.Liability(Underlying(c)) <= U64_MAX
  {
    hide Core, Backed, LifecycleOk, ExposureCapped, UnlistedEmpty, OnlyResting, Drained, Ledgers.Liability, HydrateAll,
      PoolsBalanced, KeyOf, Demand;
    var b := s.books[id];
    assert BookOk(b) && Anchored(s, b);
    var mint := b.market.mints[c];
    HydrateMovesDemand(s.credits, b, frames, mint, |frames|);
    DrawnWithinCredit(s.credits, b, frames, mint);
    PoolHolds(s, id, mint);
    ShareFits(HydrateAll(b, frames, Available(s.credits, b, frames), |frames|), mint, c);
  }

  // --------------------------------------------------------------- opening

  lemma FillableFacts(s: Chain, id: Pubkey, r: Request)
    requires Fillable(s, id, r)
    ensures Entry(s, id, r).Done? && id in s.books && Sized(s.books[id].orders) && |r.makers| == |r.plan.legs|
    ensures ReservedFor(s.books[id].market, r).Ok?
    ensures ReservedFor(s.books[id].market, r).value <= AvailableTo(s, s.books[id], r)
    ensures r.terms.side == 1 ==> r.terms.Collateral() in r.touched
    ensures r.plan.minFill <= TotalPicked(Picks(s, id, r)) <= r.terms.quantity
    ensures r.terms.branch < 2 && s.books[id].market.sequence[r.terms.branch] < U64_MAX
  {
    hide Entry, ReservedFor, AvailableTo, Picks, Review, OrderTerms.Collateral, WellFilled;
    EntryFacts(s, id, r);
  }

  /** An ask reserves a positive amount: its quantity at the live multiplier, rounded up. */
  lemma AskReservation(m: Market, r: Request)
    requires LegsOk(m) && r.terms.side == 1 && ReservedFor(m, r).Ok?
    requires m.terms.caps.ValidateOrder(r.terms.quantity, r.terms.price).Ok?
    requires 1 <= r.terms.Collateral() <= m.bases && LegOpen(m, r.terms.Collateral(), r.live)
    ensures var base, reserved := r.terms.Collateral(), ReservedFor(m, r).value;
            && base <= MAX_BASES && MultiplierParts(r.live[base].multiplier).Ok?
            && reserved == RawUnits(r.terms.quantity, m.legs[base - 1].scale,
                                    MultiplierParts(r.live[base].multiplier).value, true)
            && reserved > 0
  {
    hide LegOpen, RawUnits, MultiplierParts, LegsOk, RawFor, SingleBase, OrderTerms.Collateral, Caps.ValidateOrder;
    var base := r.terms.Collateral();
    OrderSize(m, r.terms);
    MultipleAtLeastStep(r.terms.quantity, m.terms.caps.step);
    TouchedConverts(m, r, base, r.terms.quantity);
    RoundsUpAtLeast(m, r, base, r.terms.quantity);
  }

  lemma BidReservation(m: Market, r: Request)
    requires r.terms.side == 0 && ReservedFor(m, r).Ok? && m.terms.caps.minNotional > 0
    ensures ReservedFor(m, r).value == Ceil(r.terms.quantity, r.terms.price) > 0
  {
    hide Ceil;
  }

  /** The reservation is a positive amount: a bid's notional, or what covers an ask. */
  lemma Reservation(s: Chain, id: Pubkey, r: Request)
    requires Inv(s) && Fillable(s, id, r)
    ensures var m := s.books[id].market;
            var reserved := ReservedFor(m, r).value;
            && reserved > 0
            && (r.terms.side == 0 ==> reserved == Ceil(r.terms.quantity, r.terms.price))
            && (r.terms.side == 1 ==>
                  var base := r.terms.Collateral();
                  && 1 <= base <= MAX_BASES && MultiplierParts(r.live[base].multiplier).Ok?
                  && reserved == RawUnits(r.terms.quantity, m.legs[base - 1].scale,
                                          MultiplierParts(r.live[base].multiplier).value, true))
  {
    hide Entry, Inv, BookOk, LegOpen, RawUnits, MultiplierParts, LegsOk, Core, FramesPresented, TermsShape, Fillable,
      Picks, AvailableTo, BaseRaw, SingleBase, BoundNonce, OrderTerms.Collateral, ReservedFor, Caps.ValidateOrder, Ceil,
      FramesPresented;
    FillableFacts(s, id, r);
    EntryFacts(s, id, r);
    InvBook(s, id);
    BookCaps(s.books[id]);
    TakerSide(s, id, r);
    if r.terms.side == 1 {
      AskReservation(s.books[id].market, r);
    } else {
      BidReservation(s.books[id].market, r);
    }
  }

  lemma TakerSide(s: Chain, id: Pubkey, r: Request)
    requires Entry(s, id, r).Done?
    ensures r.terms.side < 2
  {
    EntryFacts(s, id, r);
    hide Entry;
  }

  lemma OrderSize(m: Market, t: OrderTerms)
    requires m.terms.caps.ValidateOrder(t.quantity, t.price).Ok?
    ensures 0 < t.quantity <= m.terms.caps.maxQuantity && m.terms.caps.step > 0 && t.quantity % m.terms.caps.step == 0
    ensures m.terms.caps.minNotional <= Ceil(t.quantity, t.price)
  {
  }

  lemma RoundsUpAtLeast(m: Market, r: Request, base: nat, quantity: u64)
    requires 1 <= base <= MAX_BASES && MultiplierParts(r.live[base].multiplier).Ok?
    ensures RawFor(m, r, base, quantity)
            <= RawUnits(quantity, m.legs[base - 1].scale, MultiplierParts(r.live[base].multiplier).value, true)
  {
    hide RawUnits, MultiplierParts;
    DownBelowUp(quantity, m.legs[base - 1].scale, MultiplierParts(r.live[base].multiplier).value);
  }

  /** The owner's wallet holds what its order reserves; pool credit came through a frame. */
  lemma Funded(s: Chain, id: Pubkey, r: Request)
    requires Inv(s) && Fillable(s, id, r)
    ensures FramesOk(s.credits, s.books[id], r.frames) && r.owner in s.books[id].wallets && r.terms.Asset() < ASSETS
    ensures Hydrated(s, id, r).wallets[r.owner].balances[r.terms.Asset()] >= ReservedFor(s.books[id].market, r).value
    ensures r.terms.funding == 0 ==> Frame(r.owner, r.terms.Collateral()) in r.frames
  {
    hide Entry, Inv, BookOk, LegOpen, FramesPresented, TermsShape, Fillable, Picks, SingleBase, BoundNonce,
      OrderTerms.Collateral, ReservedFor, Caps.ValidateOrder, Ceil, FramesOk, HydrateAll, OrderTermsOk, LegsOk, Core;
    FillableFacts(s, id, r);
    EntryFacts(s, id, r);
    InvBook(s, id);
    BookCaps(s.books[id]);
    FramesLoad(s, id, r);
    TakerTerms(s, id, r);
    Reservation(s, id, r);
    var b := s.books[id];
    FundedFrom(s, b, r, ReservedFor(b.market, r).value);
  }

  lemma FundedFrom(s: Chain, b: Book, r: Request, reserved: nat)
    requires BookOk(b) && FramesOk(s.credits, b, r.frames) && r.owner in b.wallets && r.terms.Asset() < ASSETS
    requires r.terms.branch < 2
    requires 0 < reserved <= AvailableTo(s, b, r)
    ensures HydrateAll(b, r.frames, Available(s.credits, b, r.frames),
                       |r.frames|).wallets[r.owner].balances[r.terms.Asset()]
            >= reserved
    ensures r.terms.funding == 0 ==> Frame(r.owner, r.terms.Collateral()) in r.frames
  {
    hide Core, Backed, LegsOk, LifecycleOk, ExposureCapped, UnlistedEmpty, OnlyResting, OrderTerms.Collateral,
      HydrateAll;
    var available := Available(s.credits, b, r.frames);
    if r.terms.funding == 0 {
      var f := Frame(r.owner, r.terms.Collateral());
      var i :| 0 <= i < |r.frames| && r.frames[i] == f;
      HydrateFeeds(b, r.frames, available, |r.frames|, i);
    } else {
      forall i | 0 <= i < |r.frames|
        ensures !Feeds(r.frames[i], r.owner, r.terms.Asset())
      {
        ClaimIsNotFed(r.terms, r.frames[i]);
      }
      HydrateSkips(b, r.frames, available, |r.frames|, r.owner, r.terms.Asset());
    }
  }

  lemma ClaimIsNotFed(t: OrderTerms, f: Frame)
    requires t.funding != 0 && t.branch < 2
    ensures t.Asset() != Underlying(f.collateral)
  {
  }

  /** The books once the taker's order is open. */
  lemma OpenedKeeps(s: Chain, id: Pubkey, r: Request)
    requires Inv(s) && Fillable(s, id, r)
    ensures FramesOk(s.credits, s.books[id], r.frames)
    ensures var h, o := Hydrated(s, id, r), Opened(s, id, r);
            && Steady(Flight(o, NO_AMOUNTS)) && Framed(o, r.frames)
            && (forall a | 0 <= a < ASSETS :: o.ledgers.Liability(a) == h.ledgers.Liability(a))
  {
    hide Entry, Inv, BookOk, LegOpen, FramesPresented, TermsShape, Fillable, Picks, SingleBase, BoundNonce,
      OrderTerms.Collateral, ReservedFor, Caps.ValidateOrder, Ceil, FramesOk, HydrateAll, OrderTermsOk, LegsOk, Core,
      Backed, Bounded, Framed, Ledgers.Liability, Reserve, OrderTerms.Asset, AvailableTo;
    FillableFacts(s, id, r);
    EntryFacts(s, id, r);
    InvBook(s, id);
    BookCaps(s.books[id]);
    FramesLoad(s, id, r);
    TakerTerms(s, id, r);
    Reservation(s, id, r);
    Funded(s, id, r);
    HydratedKeeps(s, id, r.frames);
    TakerSide(s, id, r);
    var h := Hydrated(s, id, r);
    ReserveKeeps(Flight(h, NO_AMOUNTS), r.owner, r.terms, ReservedFor(s.books[id].market, r).value,
                 Ceil(r.terms.quantity, r.terms.price));
  }

  // -------------------------------------------------------------- the queue

  /** The unit a selling taker delivers in: its leg's scale and live multiplier. */
  function ScaleOf(m: Market, r: Request): nat {
    var base := r.terms.Collateral();
    if r.terms.side == 1 && 1 <= base <= MAX_BASES then m.legs[base - 1].scale else 0
  }

  function PartsOf(r: Request): Parts {
    var base := r.terms.Collateral();
    if r.terms.side == 1 && 1 <= base <= MAX_BASES && MultiplierParts(r.live[base].multiplier).Ok?
    then MultiplierParts(r.live[base].multiplier).value else Parts(1, 0)
  }

  lemma {:induction false} TotalAppends(trades: seq<Trade>, t: Trade)
    ensures Total(trades + [t]) == Total(trades) + t.quantity
  {
    if trades != [] {
      TotalAppends(trades[1..], t);
      assert (trades + [t])[1..] == trades[1..] + [t];
    }
  }

  /** What the trades fill is what the review picked. */
  lemma {:induction false} TradesFillPicks(m: Market, orders: map<OrderKey, Order>, config: Config, r: Request,
                                           picks: seq<Pick>)
    requires forall p | p in picks :: p.key in orders
    ensures Total(TradesOf(m, orders, config, r, picks)) == TotalPicked(picks)
  {
    hide RawFor, TradedBase;
    if picks != [] {
      var before, last := picks[..|picks| - 1], picks[|picks| - 1];
      TradesFillPicks(m, orders, config, r, before);
      assert last in picks;
      assert TradesOf(m, orders, config, r, picks)
          == TradesOf(m, orders, config, r, before) + [TradeOf(m, config, r, orders[last.key], last)];
      TotalAppends(TradesOf(m, orders, config, r, before), TradeOf(m, config, r, orders[last.key], last));
    }
  }

  /** A maker's readiness does not depend on the taker's own order. */
  lemma ReadyAfterOpening(b: Book, o: Book, r: Request, t: Trade)
    requires MakerReady(b, r, t) && o.wallets.Keys == b.wallets.Keys && o.market.terms == b.market.terms
    requires forall k | k in b.orders && k != r.Key() :: k in o.orders && o.orders[k] == b.orders[k]
    ensures MakerReady(o, r, t)
  {
    hide Floor, Ceil, Improvement, Surplus, OrderTerms.Collateral;
  }

  lemma TradeAt(s: Chain, id: Pubkey, r: Request, t: Trade) returns (p: Pick)
    requires id in s.books && Sized(s.books[id].orders) && |r.makers| == |r.plan.legs| && t in Trades(s, id, r)
    ensures p in Picks(s, id, r) && p.key in s.books[id].orders
    ensures t == TradeOf(s.books[id].market, s.config, r, s.books[id].orders[p.key], p)
  {
    hide Review, RawFor, TradedBase, Survivors, TradeOf;
    var picks, trades := Picks(s, id, r), Trades(s, id, r);
    var i :| 0 <= i < |trades| && trades[i] == t;
    p := picks[i];
  }

  /** Every check of the settlement loop is met when it starts. */
  lemma OpenedQueues(s: Chain, id: Pubkey, r: Request)
    requires Inv(s) && Fillable(s, id, r)
    ensures Queued(Opened(s, id, r), r, Trades(s, id, r), ScaleOf(s.books[id].market, r), PartsOf(r))
  {
    hide Entry, Inv, BookOk, Fillable, Picks, Opened, TakerReady, MakerReady, LegsOk, Core, SingleBase, BoundNonce,
      LegOpen, Caps.ValidateOrder, FramesPresented, TermsShape, OrderTerms.Collateral;
    FillableFacts(s, id, r);
    InvBook(s, id);
    BookCaps(s.books[id]);
    var b, o, trades := s.books[id], Opened(s, id, r), Trades(s, id, r);
    forall t | t in trades
      ensures MakerReady(o, r, t)
    {
      var p := TradeAt(s, id, r, t);
      PickReady(s, id, r, p);
      ReadyAfterOpening(b, o, r, t);
    }
    MakersDiffer(s, id, r);
    TakerIsReady(s, id, r);
  }

  lemma PicksDiffer(s: Chain, id: Pubkey, r: Request)
    requires id in s.books && Sized(s.books[id].orders) && |r.makers| == |r.plan.legs| && Distinct(r.makers)
    ensures forall i, j | 0 <= i < j < |Picks(s, id, r)| :: Picks(s, id, r)[i].key != Picks(s, id, r)[j].key
  {
    hide Review, Survivors;
    SurvivorsAreReviewed(s.books[id].market, s.books[id].orders, s.traders, s.config, s.now, r, |r.makers|);
  }

  lemma MakersDiffer(s: Chain, id: Pubkey, r: Request)
    requires Entry(s, id, r).Done? && Sized(s.books[id].orders) && |r.makers| == |r.plan.legs|
    ensures var trades := Trades(s, id, r);
            forall i, j | 0 <= i < j < |trades| :: Maker(r, trades[i]) != Maker(r, trades[j])
  {
    hide Entry, RawFor, TradedBase, Picks, LegOpen, SingleBase, BoundNonce, Caps.ValidateOrder, FramesPresented,
      TermsShape;
    EntryFacts(s, id, r);
    PicksDiffer(s, id, r);
    var picks, trades := Picks(s, id, r), Trades(s, id, r);
    forall i, j | 0 <= i < j < |trades|
      ensures Maker(r, trades[i]) != Maker(r, trades[j])
    {
      assert picks[i].key != picks[j].key;
    }
  }

  lemma TakerIsReady(s: Chain, id: Pubkey, r: Request)
    requires Inv(s) && Fillable(s, id, r)
    ensures TakerReady(Opened(s, id, r), r, Trades(s, id, r), ScaleOf(s.books[id].market, r), PartsOf(r))
  {
    hide Entry, Inv, BookOk, Fillable, Picks, Opened, LegsOk, Core, SingleBase, BoundNonce, LegOpen, Caps.ValidateOrder,
      Ceil, FramesPresented, TermsShape, OrderTerms.Collateral, Covers, MultiplierParts, RawUnits, ReservedFor, Trades,
      Hydrated, Total, AvailableTo;
    FillableFacts(s, id, r);
    InvBook(s, id);
    BookCaps(s.books[id]);
    TakerSide(s, id, r);
    Reservation(s, id, r);
    Funded(s, id, r);
    var b, m := s.books[id], s.books[id].market;
    assert Total(Trades(s, id, r)) == TotalPicked(Picks(s, id, r)) by {
      TotalOfTrades(s, id, r);
    }
    if r.terms.side == 1 {
      RoundedUpCovers(r.terms.quantity, ScaleOf(m, r), PartsOf(r));
      forall t | t in Trades(s, id, r)
        ensures t.base == r.terms.Collateral() && t.raw == RawUnits(t.quantity, ScaleOf(m, r), PartsOf(r), false)
      {
        var p := TradeAt(s, id, r, t);
      }
    }
  }

  lemma TotalOfTrades(s: Chain, id: Pubkey, r: Request)
    requires id in s.books && Sized(s.books[id].orders) && |r.makers| == |r.plan.legs|
    ensures Total(Trades(s, id, r)) == TotalPicked(Picks(s, id, r))
  {
    hide Survivors, Total, TotalPicked, TradesOf;
    TradesFillPicks(s.books[id].market, s.books[id].orders, s.config, r, Picks(s, id, r));
  }
}
