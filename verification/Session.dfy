/** The account images one instruction works on, updated field by field with checked
    arithmetic, as the handlers of the program update them. */
module Session {
  import opened Exact
  import opened Rules
  import opened Sums
  import opened Conversion
  import opened State
  import opened Settlement
  import opened InFlight
  import opened Matching
  import opened Chain
  import opened Exchange
  import opened Placing
  import opened Completion
  import opened Positions
  import opened Releases
  import opened Fills
  import opened Guards

  class Session {
    var market: Market
    var ledgers: Ledgers
    var tokens: Tokens
    var wallets: map<Pubkey, Wallet>
    var orders: map<OrderKey, Order>
    /** Claim tokens the fills of this instruction still owe the mints. */
    var minted: Amounts

    constructor (b: Book)
      ensures Image() == b && minted == NO_AMOUNTS
    {
      market, ledgers, tokens, wallets, orders := b.market, b.ledgers, b.tokens, b.wallets, b.orders;
      minted := NO_AMOUNTS;
    }

    function Image(): Book
      reads this
    {
      Book(market, ledgers, tokens, wallets, orders)
    }

    function InFlight(): Flight
      reads this
    {
      Flight(Image(), minted)
    }

    /** Adds to a wallet's available balance and to the market's credits. */
    method Credit(owner: Pubkey, asset: nat, amount: nat) returns (o: Outcome)
      requires owner in wallets && asset < ASSETS
      modifies this`wallets, this`ledgers
      ensures o.Done? <==>
              old(wallets[owner].balances[asset]) + amount <= U64_MAX
              && old(ledgers.credits[asset]) + amount <= U128_MAX
      ensures o.Done? ==> Image() == Post(old(Image()), owner, asset, amount)
    {
      var w := wallets[owner];
      if w.balances[asset] + amount > U64_MAX { return Fail(Arithmetic); }
      wallets := wallets[owner := w.(balances := w.balances[asset := w.balances[asset] + amount])];
      if ledgers.credits[asset] + amount > U128_MAX { return Fail(Arithmetic); }
      ledgers := ledgers.(credits := ledgers.credits[asset := ledgers.credits[asset] + amount]);
      return Done;
    }

    method Debit(owner: Pubkey, asset: nat, amount: nat) returns (o: Outcome)
      requires owner in wallets && asset < ASSETS
      modifies this`wallets, this`ledgers
      ensures o.Done? <==> old(wallets[owner].balances[asset]) >= amount && old(ledgers.credits[asset]) >= amount
      ensures o.Done? ==> Image() == Post(old(Image()), owner, asset, -(amount as int))
    {
      var w := wallets[owner];
      if w.balances[asset] < amount { return Fail(InsufficientFunds); }
      wallets := wallets[owner := w.(balances := w.balances[asset := w.balances[asset] - amount])];
      if ledgers.credits[asset] < amount { return Fail(Insolvent); }
      ledgers := ledgers.(credits := ledgers.credits[asset := ledgers.credits[asset] - amount]);
      return Done;
    }

    method SubtractEscrow(asset: nat, amount: nat) returns (o: Outcome)
      requires asset < ASSETS
      modifies this`ledgers
      ensures o.Done? <==> old(ledgers.escrow[asset]) >= amount
      ensures o.Done? ==> Image() == Unescrow(old(Image()), asset, amount)
    {
      if ledgers.escrow[asset] < amount { return Fail(Insolvent); }
      ledgers := ledgers.(escrow := ledgers.escrow[asset := ledgers.escrow[asset] - amount]);
      return Done;
    }

    method ReduceExposure(owner: Pubkey, amount: nat) returns (o: Outcome)
      requires owner in wallets
      modifies this`wallets, this`ledgers
      ensures o.Done? <==> old(ledgers.openNotional) >= amount && old(wallets[owner].openNotional) >= amount
      ensures o.Done? ==> Image() == Unexpose(old(Image()), owner, amount)
    {
      if ledgers.openNotional < amount { return Fail(Insolvent); }
      ledgers := ledgers.(openNotional := ledgers.openNotional - amount);
      var w := wallets[owner];
      if w.openNotional < amount { return Fail(Insolvent); }
      wallets := wallets[owner := w.(openNotional := w.openNotional - amount)];
      return Done;
    }

    method IncreaseBacking(c: nat, amount: nat) returns (o: Outcome)
      requires c < COLLATERALS
      modifies this`ledgers
      ensures o.Done? <==> old(ledgers.backing[c]) + amount <= U64_MAX
      ensures o.Done? ==> Image() == AddBacking(old(Image()), c, amount)
    {
      if ledgers.backing[c] + amount > U64_MAX { return Fail(Arithmetic); }
      ledgers := ledgers.(backing := ledgers.backing[c := ledgers.backing[c] + amount]);
      return Done;
    }

    method DecreaseBacking(c: nat, amount: nat) returns (o: Outcome)
      requires c < COLLATERALS
      modifies this`ledgers
      ensures o.Done? <==> old(ledgers.backing[c]) >= amount
      ensures o.Done? ==> Image() == AddBacking(old(Image()), c, -(amount as int))
    {
      if ledgers.backing[c] < amount { return Fail(InsufficientFunds); }
      ledgers := ledgers.(backing := ledgers.backing[c := ledgers.backing[c] - amount]);
      return Done;
    }

    /** Both claim mints of a collateral mint into or burn from custody. */
    method MoveTokens(c: nat, yes: int, no: int)
      requires c < COLLATERALS
      modifies this`tokens
      ensures Image() == Retoken(old(Image()), c, yes, no)
    {
      var before := (Snapshot(Image(), Claim(c, 0)), Snapshot(Image(), Claim(c, 1)));
      var y, n := tokens[Claim(c, 0)], tokens[Claim(c, 1)];
      tokens := tokens[Claim(c, 0) := ClaimTokens(y.supply + yes, y.vault + yes)];
      tokens := tokens[Claim(c, 1) := ClaimTokens(n.supply + no, n.vault + no)];
      assert CheckDelta(before.0, Snapshot(Image(), Claim(c, 0)), yes, true);
      assert CheckDelta(before.1, Snapshot(Image(), Claim(c, 1)), no, true);
    }

    method IncreaseFees(asset: nat, fee: nat) returns (o: Outcome)
      requires asset < ASSETS
      modifies this`ledgers
      ensures o.Done? <==> old(ledgers.fees[asset]) + fee <= U64_MAX
      ensures o.Done? ==> Image() == AddFees(old(Image()), asset, fee)
    {
      if ledgers.fees[asset] + fee > U64_MAX { return Fail(Arithmetic); }
      ledgers := ledgers.(fees := ledgers.fees[asset := ledgers.fees[asset] + fee]);
      return Done;
    }

    /** Adds to what the instruction owes both claim mints of a collateral. */
    method Owe(c: nat, amount: nat) returns (o: Outcome)
      requires c < COLLATERALS
      modifies this`minted
      ensures o.Done? <==> old(minted[Claim(c, 0)]) + amount <= U64_MAX && old(minted[Claim(c, 1)]) + amount <= U64_MAX
      ensures o.Done? ==> minted == DeliverMints(old(minted), c, 0, amount)
    {
      if minted[Claim(c, 0)] + amount > U64_MAX || minted[Claim(c, 1)] + amount > U64_MAX { return Fail(Arithmetic); }
      minted := minted[Claim(c, 0) := minted[Claim(c, 0)] + amount];
      minted := minted[Claim(c, 1) := minted[Claim(c, 1)] + amount];
      return Done;
    }

    // The methods below assert that the checks of the ones above pass: in sound books the
    // runtime guards of a fill never fire.

    /** Both sides of a fill leave escrow and exposure; the buyer keeps its improvement. */
    method LeaveSides(buyer: Pubkey, bidAsset: nat, reduction: nat, improvement: nat,
                      seller: Pubkey, askAsset: nat, raw: nat, reduction2: nat)
      requires SidesRoom(Image(), buyer, bidAsset, reduction, improvement, seller, askAsset, raw, reduction2)
      modifies this`wallets, this`ledgers
      ensures Image() == Left(old(Image()), buyer, bidAsset, reduction, improvement, seller, askAsset, raw, reduction2)
    {
      hide Post, Unexpose, Unescrow;
      LeftStages(Image(), buyer, bidAsset, reduction, improvement, seller, askAsset, raw, reduction2);
      var o := SubtractEscrow(bidAsset, reduction);
      assert o.Done?;
      o := SubtractEscrow(askAsset, raw);
      assert o.Done?;
      o := Credit(buyer, bidAsset, improvement);
      assert o.Done?;
      o := ReduceExposure(buyer, reduction);
      assert o.Done?;
      o := ReduceExposure(seller, reduction2);
      assert o.Done?;
    }

    /** Delivers claims of one collateral to the recipient, less the fee; pool collateral becomes
        a complete set whose other half stays with the funder. */
    method SettleAsset(c: nat, funding: nat, funder: Pubkey, recipient: Pubkey, branch: nat, amount: nat, fee: nat)
      requires c < COLLATERALS && branch < 2 && funder in wallets && recipient in wallets && fee <= amount
      requires Fits(Deliver(Image(), c, funding, funder, recipient, branch, amount, fee))
      modifies this`wallets, this`ledgers
      ensures Image() == Deliver(old(Image()), c, funding, funder, recipient, branch, amount, fee)
    {
      hide Fits, Post, AddBacking, AddFees;
      ghost var b := Image();
      DeliverFits(b, c, funding, funder, recipient, branch, amount, fee);
      DeliverFitsFunded(b, c, funding, funder, recipient, branch, amount, fee);
      if funding == 0 {
        BackingLeaves(b, c, amount);
        var o := IncreaseBacking(c, amount);
        assert o.Done?;
        o := Credit(funder, Claim(c, 1 - branch), amount);
        assert o.Done?;
      }
      var o := Credit(recipient, Claim(c, branch), amount - fee);
      assert o.Done?;
      PostLeavesFees(b, c, funding, funder, branch, amount, recipient, amount - fee);
      o := IncreaseFees(Claim(c, branch), fee);
      assert o.Done?;
    }

    /** A completed ask's leftover reservation returns to what funded it. */
    method RefundSurplus(key: OrderKey)
      requires key in orders && key.owner in wallets && orders[key].terms.Asset() < ASSETS && orders[key].reserved >= 0
      requires ledgers.escrow[orders[key].terms.Asset()] >= orders[key].reserved
      requires wallets[key.owner].balances[orders[key].terms.Asset()] + orders[key].reserved <= U64_MAX
      requires ledgers.credits[orders[key].terms.Asset()] + orders[key].reserved <= U64_MAX
      modifies this`wallets, this`ledgers, this`orders
      ensures Image() == Refunded(old(Image()), key)
    {
      hide Post, OrderTerms.Asset;
      var order := orders[key];
      if order.reserved == 0 {
        NothingRefunded(Image(), key);
      } else {
        var asset := order.terms.Asset();
        var o := SubtractEscrow(asset, order.reserved);
        assert o.Done?;
        o := Credit(key.owner, asset, order.reserved);
        assert o.Done?;
        orders := orders[key := order.(reserved := 0)];
      }
    }

    /** Rewrites both order images of a fill. */
    method WriteImages(buyKey: OrderKey, sellKey: OrderKey, quantity: u64, fill: Filled, raw: u64, buyerCarry: u16,
                       sellerCarry: u16,
                       ghost b: Book, ghost t: Trade)
      requires Settleable(b, t) && Image() == BothDelivered(b, t) && FillAgrees(b, t, fill) && ImagesReady(b, t)
      requires buyKey == t.buy && sellKey == t.sell && quantity == t.quantity && raw == t.raw
      requires buyerCarry == CarryOn(t.raw, t.buyerRate, orders[t.buy].feeCarry)
      requires sellerCarry == CarryOn(t.Quote(), t.sellerRate, orders[t.sell].feeCarry)
      modifies this`orders
      ensures Image() == ImagesWritten(b, t)
    {
      hide Ceil, Floor, OrderTerms.Asset, Improvement, FeeOn, CarryOn, BothDelivered, Surplus;
      var buy, sell := orders[buyKey], orders[sellKey];
      assert buy.openNotional >= fill.buyerNotionalReduction && sell.openNotional >= fill.sellerNotionalReduction
             && sell.reserved >= raw;
      buy := buy.(feeCarry := buyerCarry, remaining := fill.buyerRemaining, filled := buy.filled + quantity,
                  reserved := fill.buyerReserved, openNotional := buy.openNotional - fill.buyerNotionalReduction);
      sell := sell.(feeCarry := sellerCarry, remaining := fill.sellerRemaining, filled := sell.filled + quantity,
                    reserved := sell.reserved - raw, openNotional := sell.openNotional - fill.sellerNotionalReduction);
      if buy.remaining == 0 { buy := buy.(status := FILLED); }
      if sell.remaining == 0 { sell := sell.(status := FILLED); }
      orders := orders[buyKey := buy][sellKey := sell];
    }

    /** Writes the images of a fill; a completed ask returns its surplus. */
    method WriteOrders(buyKey: OrderKey, sellKey: OrderKey, quantity: u64, fill: Filled, raw: u64, buyerCarry: u16,
                       sellerCarry: u16,
                       ghost b: Book, ghost t: Trade)
      requires Settleable(b, t) && Image() == BothDelivered(b, t) && FillAgrees(b, t, fill) && ImagesReady(b, t)
      requires buyKey == t.buy && sellKey == t.sell && quantity == t.quantity && raw == t.raw
      requires buyerCarry == CarryOn(t.raw, t.buyerRate, orders[t.buy].feeCarry)
      requires sellerCarry == CarryOn(t.Quote(), t.sellerRate, orders[t.sell].feeCarry)
      modifies this`wallets, this`ledgers, this`orders
      ensures Image() == OrdersWritten(b, t)
    {
      hide Ceil, Floor, OrderTerms.Asset, Improvement, FeeOn, CarryOn, BothDelivered, Refunded, OrdersWritten,
        ImagesReady, FillAgrees, ImagesWritten;
      WrittenAre(b, t);
      WrittenRoom(b, t);
      WriteImages(buyKey, sellKey, quantity, fill, raw, buyerCarry, sellerCarry, b, t);
      if orders[sellKey].remaining == 0 {
        RefundSurplus(sellKey);
      }
    }

    /** What a fill mints is owed once more, for each pool-funded side. */
    method OweBoth(base: nat, askFunding: nat, raw: nat, bidFunding: nat, quote: nat)
      requires base < COLLATERALS && MintRoom(minted, base, askFunding, raw)
      requires MintRoom(DeliverMints(minted, base, askFunding, raw), QUOTE, bidFunding, quote)
      modifies this`minted
      ensures minted == DeliverMints(DeliverMints(old(minted), base, askFunding, raw), QUOTE, bidFunding, quote)
    {
      if askFunding == 0 {
        var o := Owe(base, raw);
        assert o.Done?;
      }
      if bidFunding == 0 {
        var o := Owe(QUOTE, quote);
        assert o.Done?;
      }
    }

    /** The leg is delivered to the buyer's recipient, the quote to the seller's. */
    method DeliverBoth(buyKey: OrderKey, sellKey: OrderKey, base: nat, quote: nat, raw: nat, buyerFee: nat,
                       sellerFee: nat,
                       ghost f: Flight, ghost t: Trade)
      requires Settleable(f.book, t) && FillRoom(f, t) && Image() == SidesLeave(f.book, t)
      requires buyKey == t.buy && sellKey == t.sell && base == t.base && quote == t.Quote() && raw == t.raw
      requires buyerFee == FeeOn(t.raw, t.buyerRate, f.book.orders[t.buy].feeCarry)
      requires sellerFee == FeeOn(t.Quote(), t.sellerRate, f.book.orders[t.sell].feeCarry)
      modifies this`wallets, this`ledgers
      ensures Image() == BothDelivered(f.book, t)
    {
      hide Ceil, Floor, OrderTerms.Asset, SidesLeave, Deliver, Fits, Surplus, Improvement, FeeOn, SidesRoom,
        ImagesReady, MintRoom;
      var buy, sell := orders[buyKey], orders[sellKey];
      SettleAsset(base, sell.terms.funding, sellKey.owner, buy.terms.recipient, buy.terms.branch, raw, buyerFee);
      SettleAsset(QUOTE, buy.terms.funding, buyKey.owner, sell.terms.recipient, buy.terms.branch, quote, sellerFee);
    }

    /** Both sides of the fill give up what they reserved, and the mints are owed for it. */
    method TakeSides(buyKey: OrderKey, sellKey: OrderKey, base: nat, fill: Filled, raw: u64, ghost t: Trade)
      requires Settleable(Image(), t) && FillRoom(InFlight(), t) && FillAgrees(Image(), t, fill)
      requires buyKey == t.buy && sellKey == t.sell && base == t.base && raw == t.raw
      modifies this`wallets, this`ledgers, this`minted
      ensures Image() == SidesLeave(old(Image()), t) && minted == SettleMints(old(Image()), old(minted), t)
    {
      hide FillRoom, FillAgrees, Settleable, OrderTerms.Asset, Left, SidesLeave, SettleMints, DeliverMints, SidesRoom,
        MintRoom, Floor;
      RoomForSides(InFlight(), t, fill);
      var buy, sell := orders[buyKey], orders[sellKey];
      LeaveSides(buyKey.owner, buy.terms.Asset(), fill.buyerNotionalReduction, fill.improvement,
                 sellKey.owner, sell.terms.Asset(), raw, fill.sellerNotionalReduction);
      OweBoth(base, sell.terms.funding, raw, buy.terms.funding, fill.quote);
    }

    /** Escrow, exposure, claims, order images and surplus of one fill. */
    method SettleFill(buyKey: OrderKey, sellKey: OrderKey, base: nat, quantity: u64, fill: Filled, raw: u64,
                      buyerFee: (u64, u16), sellerFee: (u64, u16), ghost t: Trade)
      requires Settleable(Image(), t) && FillRoom(InFlight(), t) && FillAgrees(Image(), t, fill)
      requires buyKey == t.buy && sellKey == t.sell && base == t.base && quantity == t.quantity && raw == t.raw
      requires buyerFee == (FeeOn(t.raw, t.buyerRate, orders[t.buy].feeCarry),
                            CarryOn(t.raw, t.buyerRate, orders[t.buy].feeCarry))
      requires sellerFee == (FeeOn(t.Quote(), t.sellerRate, orders[t.sell].feeCarry),
                             CarryOn(t.Quote(), t.sellerRate, orders[t.sell].feeCarry))
      modifies this`wallets, this`ledgers, this`orders, this`minted
      ensures InFlight() == Flight(OrdersWritten(old(Image()), t), SettleMints(old(Image()), old(minted), t))
    {
      hide Ceil, Floor, FeeOn, CarryOn, ImagesReady, FillRoom, FillAgrees, OrdersWritten, BothDelivered, SettleMints,
        SidesLeave, Settleable;
      ghost var b, f := Image(), InFlight();
      RoomForImages(f, t, fill);
      TakeSides(buyKey, sellKey, base, fill, raw, t);
      DeliverBoth(buyKey, sellKey, base, fill.quote, raw, buyerFee.0, sellerFee.0, f, t);
      WriteOrders(buyKey, sellKey, quantity, fill, raw, buyerFee.1, sellerFee.1, b, t);
    }

    /** One fill of a planned maker: what the rules compute is what the books settle. */
    method FillMaker(r: Request, config: Config, key: OrderKey, quantity: u64, ghost t: Trade)
      requires Steady(InFlight()) && PlannedFill(Image(), r, config, key, quantity, t)
      modifies this`wallets, this`ledgers, this`orders, this`minted
      ensures InFlight() == SettleNext(old(InFlight()), t)
    {
      hide Steady, PlannedFill, Fill, BaseRaw, Fee, OrderTerms.Collateral, FillAgrees, Settleable, SettleNext, FillRoom,
        OrdersWritten, SettleMints, FeeOn, CarryOn, Floor;
      FillComputes(InFlight(), r, config, key, quantity, t);
      var takerIsBuy := r.terms.side == 0;
      var buyKey := if takerIsBuy then r.Key() else key;
      var sellKey := if takerIsBuy then key else r.Key();
      var buy, sell := orders[buyKey], orders[sellKey];
      var base := sell.terms.Collateral();
      var filled := Fill(quantity, market.terms.caps.step, buy.remaining, sell.remaining, buy.terms.price,
                         sell.terms.price, !takerIsBuy);
      assert filled.Ok?;
      var converted := BaseRaw(quantity, market.legs[base - 1].scale, r.live[base].multiplier, false);
      assert converted.Ok? && 0 < converted.value <= sell.reserved;
      var buyerFee := Fee(converted.value, if takerIsBuy then config.takerBps else config.makerBps, buy.feeCarry);
      assert buyerFee.Ok?;
      var sellerFee := Fee(filled.value.quote, if takerIsBuy then config.makerBps else config.takerBps, sell.feeCarry);
      assert sellerFee.Ok?;
      SettleFill(buyKey, sellKey, base, quantity, filled.value, converted.value, buyerFee.value, sellerFee.value, t);
    }

    // -------------------------------------------------- credit frames

    /** A presented frame's credit enters its owner's empty wallet. */
    method Hydrate(f: Frame, available: nat)
      requires FrameRoom(Image(), f, available)
      modifies this`wallets, this`ledgers
      ensures Image() == Post(old(Image()), f.owner, Underlying(f.collateral), available)
    {
      assert wallets[f.owner].balances[Underlying(f.collateral)] == 0;
      var o := Credit(f.owner, Underlying(f.collateral), available);
      assert o.Done?;
    }

    method HydrateFrames(frames: seq<Frame>, available: seq<int>)
      requires |frames| == |available| && FramesIn(Image(), frames) && Distinct(frames) && Core(Image())
               && Drained(Image())
      requires forall x | x in available :: x >= 0
      requires Bounded(HydrateAll(Image(), frames, available, |frames|))
      modifies this`wallets, this`ledgers
      ensures Image() == HydrateAll(old(Image()), frames, available, |frames|)
    {
      hide Core, Drained, Bounded, Post, FrameRoom;
      ghost var b := Image();
      for i := 0 to |frames|
        invariant Image() == HydrateAll(b, frames, available, i)
      {
        FrameLoads(b, frames, available, i);
        assert available[i] in available && frames[i] in frames;
        Hydrate(frames[i], available[i]);
      }
    }

    /** A frame takes back whatever pool credit its owner's wallet holds. */
    method Flush(f: Frame) returns (available: nat)
      requires f.owner in wallets && f.collateral < COLLATERALS
      requires 0 <= wallets[f.owner].balances[Underlying(f.collateral)] <= ledgers.credits[Underlying(f.collateral)]
      modifies this`wallets, this`ledgers
      ensures available == old(wallets[f.owner].balances[Underlying(f.collateral)])
      ensures Image() == Drain(old(Image()), f)
    {
      available := wallets[f.owner].balances[Underlying(f.collateral)];
      var o := Debit(f.owner, Underlying(f.collateral), available);
      assert o.Done?;
    }

    method FlushFrames(frames: seq<Frame>, credits: map<CreditKey, int>) returns (after: map<CreditKey, int>)
      requires FramesIn(Image(), frames) && Core(Image())
      modifies this`wallets, this`ledgers
      ensures Image() == FlushAll(old(Image()), frames, |frames|)
      ensures after == PutBack(credits, old(Image()).market, frames, AllFlushed(old(Image()), frames), |frames|)
    {
      hide Core, Drain, FlushAll, PutBack;
      ghost var b := Image();
      after := credits;
      FlushStarts(b, frames, credits);
      for i := 0 to |frames|
        invariant Image() == FlushAll(b, frames, i)
        invariant after == PutBack(credits, b.market, frames, AllFlushed(b, frames), i)
      {
        FlushRoom(b, frames, i);
        FlushNext(b, frames, credits, i);
        var available := Flush(frames[i]);
        after := after[KeyOf(market, frames[i]) := available];
      }
    }

    // -------------------------------------------------- orders

    /** The whole reservation of an order returns to its owner. */
    method ReleaseOrder(key: OrderKey)
      requires ReleaseRoom(Image(), key)
      modifies this`wallets, this`ledgers, this`orders
      ensures Image() == Release(old(Image()), key)
    {
      hide Release, Post, OrderTerms.Asset;
      ReleaseAgrees(Image(), key);
      UnexposedPost(Image(), key);
      var order := orders[key];
      var o := SubtractEscrow(order.terms.Asset(), order.reserved);
      assert o.Done?;
      o := Credit(key.owner, order.terms.Asset(), order.reserved);
      assert o.Done?;
      o := ReduceExposure(key.owner, order.openNotional);
      assert o.Done?;
      orders := orders[key := order.(remaining := 0, reserved := 0, openNotional := 0, status := CANCELLED)];
    }

    /** An immediate-or-cancel order releases what it could not fill. */
    method ReleaseLeftover(r: Request)
      requires Steady(InFlight()) && Entered(Image(), r)
      requires orders[r.Key()].remaining != 0 ==> orders[r.Key()].status == LIVE
      modifies this`wallets, this`ledgers, this`orders
      ensures Image() == Finished(old(Image()), r)
    {
      hide Steady, Release, ReleaseRoom, OrderTerms.Asset;
      if r.terms.tif == 1 && orders[r.Key()].remaining != 0 {
        FlightReleases(InFlight(), r.Key());
        ReleaseOrder(r.Key());
      }
    }

    /** Writes the placement into its branch's ring. */
    method Record(r: Request, sequence: nat, ticks: u64)
      requires r.terms.branch < 2 && ticks == Ticks(market, r.terms.price)
      modifies this`market
      ensures Image() == Recorded(old(Image()), r, sequence)
    {
      var resting := r.Key() in orders && orders[r.Key()].status == LIVE;
      var slot := r.terms.branch * RECENT + sequence % RECENT;
      market := market.(recent := market.recent[slot := Placement(ticks, if resting then r.terms.side else SIDE_NONE)]);
    }

    /** A new order's reservation leaves its owner's available credit. */
    method OpenOrder(owner: Pubkey, t: OrderTerms, reserved: nat, notional: nat) returns (o: Outcome)
      requires owner in wallets && OrderKey(owner, t.salt) !in orders && t.Asset() < ASSETS && t.branch < 2
      requires wallets[owner].balances[t.Asset()] <= ledgers.credits[t.Asset()]
      modifies this
      ensures o.Done? <==> && old(wallets[owner].balances[t.Asset()]) >= reserved
                           && old(ledgers.escrow[t.Asset()]) + reserved <= U128_MAX
                           && old(ledgers.openNotional) + notional <= U128_MAX
                           && old(wallets[owner].openNotional) + notional <= U128_MAX
                           && old(market.sequence[t.branch]) < U64_MAX
      ensures o.Done? ==> Image() == Reserve(old(Image()), owner, t, reserved, notional) && minted == old(minted)
    {
      hide Reserve, Post, OrderTerms.Asset;
      ghost var b := Image();
      if market.sequence[t.branch] < U64_MAX {
        OpenAgrees(b, owner, t, reserved, notional);
      }
      PostKeepsCounters(b, owner, t.Asset(), -(reserved as int));
      o := Debit(owner, t.Asset(), reserved);
      if o.Fail? { return; }
      if ledgers.escrow[t.Asset()] + reserved > U128_MAX { return Fail(Arithmetic); }
      ledgers := ledgers.(escrow := ledgers.escrow[t.Asset() := ledgers.escrow[t.Asset()] + reserved]);
      if ledgers.openNotional + notional > U128_MAX { return Fail(Arithmetic); }
      ledgers := ledgers.(openNotional := ledgers.openNotional + notional);
      if wallets[owner].openNotional + notional > U128_MAX { return Fail(Arithmetic); }
      wallets := wallets[owner := wallets[owner].(openNotional := wallets[owner].openNotional + notional)];
      var sequence := market.sequence[t.branch];
      if sequence + 1 > U64_MAX { return Fail(Arithmetic); }
      market := market.(sequence := market.sequence[t.branch := sequence + 1]);
      orders := orders[OrderKey(owner, t.salt) := OpenedOrder(t, sequence, reserved, notional)];
    }

    // -------------------------------------------------- claim tokens and guards

    /** Mints what is owed of one collateral, and checks the tokens moved by exactly that. */
    method MintClaims(c: nat)
      requires c < COLLATERALS
      modifies this`tokens
      ensures tokens == old(tokens)[Claim(c, 0) := ClaimTokens(old(tokens)[Claim(c, 0)].supply + minted[Claim(c, 0)],
                                                                old(tokens)[Claim(c, 0)].vault + minted[Claim(c, 0)])]
                                   [Claim(c, 1) := ClaimTokens(old(tokens)[Claim(c, 1)].supply + minted[Claim(c, 1)],
                                                                old(tokens)[Claim(c, 1)].vault + minted[Claim(c, 1)])]
    {
      for branch := 0 to 2
        invariant branch >= 1 ==>
                  tokens[Claim(c, 0)] == ClaimTokens(old(tokens)[Claim(c, 0)].supply + minted[Claim(c, 0)],
                                                       old(tokens)[Claim(c, 0)].vault + minted[Claim(c, 0)])
        invariant branch >= 2 ==>
                  tokens[Claim(c, 1)] == ClaimTokens(old(tokens)[Claim(c, 1)].supply + minted[Claim(c, 1)],
                                                       old(tokens)[Claim(c, 1)].vault + minted[Claim(c, 1)])
        invariant forall a | 0 <= a < ASSETS && !(branch >= 1 && a == Claim(c, 0))
                  && !(branch >= 2 && a == Claim(c, 1)) ::
                    tokens[a] == old(tokens)[a]
      {
        var a := Claim(c, branch);
        var before := Snapshot(Image(), a);
        tokens := tokens[a := ClaimTokens(tokens[a].supply + minted[a], tokens[a].vault + minted[a])];
        assert CheckDelta(before, Snapshot(Image(), a), minted[a], true);
      }
    }

    /** Mints what is owed of every presented collateral, checking each against backing and
        custody afterwards. */
    method MintPresented(presented: set<nat>, vaults: map<nat, int>)
      requires OwedWithin(minted, presented) && presented <= vaults.Keys
      requires Core(Image()) && Core(MintAll(Image(), minted)) && Backed(MintAll(Image(), minted), NO_AMOUNTS)
      requires market.Payouts().Some? ==> ValidPayout(market.payouts.0, market.payouts.1)
      requires forall c | c in presented && c < COLLATERALS :: vaults[c] >= ledgers.Liability(Underlying(c))
      modifies this`tokens
      ensures Image() == MintAll(old(Image()), minted)
    {
      hide Core, Backed, Ledgers.Liability, MintSome, MintAll, CheckCollateral, OwedWithin;
      ghost var b := Image();
      MintSomeStarts(b, minted);
      for c := 0 to COLLATERALS
        invariant Image() == MintSome(b, minted, c)
      {
        MintNext(b, minted, presented, c);
        if c in presented {
          MintClaims(c);
          MintedPasses(b, minted, c, vaults[c]);
          assert CheckCollateral(Image(), c, vaults[c]);
        }
      }
    }
  }
}
