/** One fill as the handler of placements makes it: the same trade as in the books, update by
    update, and why each of its checks passes in sound books. */
module Fills {
  import opened Exact
  import opened Rules
  import opened Sums
  import opened Conversion
  import opened State
  import opened Settlement
  import opened InFlight
  import opened Matching

  // ------------------------------------------------ the updates as functions

  function Unescrow(b: Book, asset: nat, amount: int): (r: Book)
    requires asset < ASSETS
    ensures r == b.(ledgers := b.ledgers.(escrow := r.ledgers.escrow))
  {
    b.(ledgers := b.ledgers.(escrow := b.ledgers.escrow[asset := b.ledgers.escrow[asset] - amount]))
  }

  function Unexpose(b: Book, owner: Pubkey, amount: int): (r: Book)
    requires owner in b.wallets
    ensures r.wallets.Keys == b.wallets.Keys && r.orders == b.orders && r.market == b.market && r.tokens == b.tokens
  {
    var w := b.wallets[owner];
    b.(wallets := b.wallets[owner := w.(openNotional := w.openNotional - amount)],
       ledgers := b.ledgers.(openNotional := b.ledgers.openNotional - amount))
  }

  function PutOrder(b: Book, key: OrderKey, o: Order): Book {
    b.(orders := b.orders[key := o])
  }

  /** Amounts that fit their 64-bit fields. */
  ghost predicate Fits(b: Book) {
    && (forall o, a | o in b.wallets && 0 <= a < ASSETS :: b.wallets[o].balances[a] <= U64_MAX)
    && (forall a | 0 <= a < ASSETS :: b.ledgers.credits[a] <= U64_MAX && (IsClaim(a) ==> b.ledgers.fees[a] <= U64_MAX))
    && (forall c | 0 <= c < COLLATERALS :: b.ledgers.backing[c] <= U64_MAX)
  }

  /** A selling order's image before its surplus is returned. */
  ghost function SoldImage(o: Order, t: Trade): Order
    requires t.quantity <= o.remaining
  {
    Sold(o, t).(reserved := o.reserved - t.raw)
  }

  /** What the order images need to be rewritten, and a surplus to be returned. */
  ghost predicate ImagesReady(b: Book, t: Trade)
    requires Settleable(b, t)
  {
    var buy, sell, d := b.orders[t.buy], b.orders[t.sell], BothDelivered(b, t);
    var asset := sell.terms.Asset();
    && buy.filled + t.quantity <= U64_MAX && sell.filled + t.quantity <= U64_MAX && t.raw <= sell.reserved
    && buy.openNotional == Ceil(buy.remaining, buy.terms.price) >= Ceil(buy.remaining - t.quantity, buy.terms.price)
    && sell.openNotional == Ceil(sell.remaining, sell.terms.price)
       >= Ceil(sell.remaining - t.quantity, sell.terms.price)
    && 0 <= Surplus(sell, t) <= d.ledgers.escrow[asset]
    && d.wallets[t.sell.owner].balances[asset] + Surplus(sell, t) <= U64_MAX
    && d.ledgers.credits[asset] + Surplus(sell, t) <= U64_MAX
  }

  /** The images as written, with the surplus still in place. */
  ghost function ImagesWritten(b: Book, t: Trade): (r: Book)
    requires Settleable(b, t)
    ensures r == BothDelivered(b, t).(orders := r.orders)
  {
    PutOrder(PutOrder(BothDelivered(b, t), t.buy, Bought(b.orders[t.buy], t)), t.sell, SoldImage(b.orders[t.sell], t))
  }

  lemma WrittenAre(b: Book, t: Trade)
    requires Settleable(b, t)
    ensures var w, sell := ImagesWritten(b, t), b.orders[t.sell];
            && t.sell in w.orders && w.orders[t.sell].terms.Asset() == sell.terms.Asset()
            && OrdersWritten(b, t) == (if sell.remaining == t.quantity then Refunded(w, t.sell) else w)
  {
    hide Ceil, Floor, OrderTerms.Asset, FeeOn, CarryOn, BothDelivered, Post, Unescrow, Bought;
    var d, sell := BothDelivered(b, t), b.orders[t.sell];
    var asset := sell.terms.Asset();
    PutBeside(d, t.buy, Bought(b.orders[t.buy], t), t.sell, Sold(sell, t), SoldImage(sell, t), t.sell.owner, asset,
              Surplus(sell, t));
    if sell.remaining != t.quantity {
      NothingPosted(PutOrder(PutOrder(d, t.buy, Bought(b.orders[t.buy], t)), t.sell, Sold(sell, t)), t.sell.owner,
                    asset);
    }
  }

  /** Order images are written beside escrow and credit. */
  lemma PutBeside(b: Book, buy: OrderKey, bought: Order, sell: OrderKey, sold: Order, image: Order, owner: Pubkey,
                  asset: nat, amount: int)
    requires owner in b.wallets && asset < ASSETS
    ensures Post(Unescrow(PutOrder(PutOrder(b, buy, bought), sell, sold), asset, amount), owner, asset, amount)
         == PutOrder(Post(Unescrow(PutOrder(PutOrder(b, buy, bought), sell, image), asset, amount), owner, asset,
                          amount), sell, sold)
  {
    assert b.orders[buy := bought][sell := image][sell := sold] == b.orders[buy := bought][sell := sold];
  }

  lemma NothingPosted(b: Book, owner: Pubkey, asset: nat)
    requires owner in b.wallets && asset < ASSETS
    ensures Post(Unescrow(b, asset, 0), owner, asset, 0) == b
  {
    assert b.ledgers.escrow[asset := b.ledgers.escrow[asset]] == b.ledgers.escrow;
    assert b.ledgers.credits[asset := b.ledgers.credits[asset]] == b.ledgers.credits;
    var w := b.wallets[owner];
    assert w.balances[asset := w.balances[asset]] == w.balances;
    assert b.wallets[owner := w] == b.wallets;
  }

  lemma SteadyParts(f: Flight)
    requires Steady(f)
    ensures Core(f.book) && Backed(f.book, f.minted) && Bounded(f.book) && f.book.market.Payouts().None?
  {
  }

  ghost function Refunded(b: Book, key: OrderKey): Book
    requires key in b.orders && key.owner in b.wallets && b.orders[key].terms.Asset() < ASSETS
  {
    var o := b.orders[key];
    PutOrder(Post(Unescrow(b, o.terms.Asset(), o.reserved), key.owner, o.terms.Asset(), o.reserved), key,
             o.(reserved := 0))
  }

  lemma NothingRefunded(b: Book, key: OrderKey)
    requires key in b.orders && key.owner in b.wallets && b.orders[key].terms.Asset() < ASSETS
             && b.orders[key].reserved == 0
    ensures Refunded(b, key) == b
  {
    hide OrderTerms.Asset;
    var a := b.orders[key].terms.Asset();
    assert b.ledgers.escrow[a := b.ledgers.escrow[a]] == b.ledgers.escrow;
    assert b.ledgers.credits[a := b.ledgers.credits[a]] == b.ledgers.credits;
    var w := b.wallets[key.owner];
    assert w.balances[a := w.balances[a]] == w.balances;
    assert b.wallets[key.owner := w] == b.wallets;
    assert b.orders[key := b.orders[key]] == b.orders;
  }

  /** Which side of the trade the taker is, and at whose price and rates it settles. */
  lemma TradeSides(b: Book, config: Config, r: Request, key: OrderKey, quantity: u64, t: Trade)
    requires Matches(b, t) && key in b.orders && r.terms.side < 2
    requires t == TradeOf(b.market, config, r, b.orders[key], Pick(key, quantity))
    ensures t.quantity == quantity && t.price == b.orders[key].terms.price
    ensures r.terms.side == 0 ==>
            t.buy == r.Key() && t.sell == key && t.buyerRate == config.takerBps && t.sellerRate == config.makerBps
    ensures r.terms.side == 1 ==>
            t.buy == key && t.sell == r.Key() && t.buyerRate == config.makerBps && t.sellerRate == config.takerBps
    ensures b.orders[t.sell].terms.Collateral() == t.base && 0 < t.raw <= b.orders[t.sell].reserved
  {
    hide Floor, RawFor, TradedBase;
  }

  /** The amounts of a live order. */
  lemma LiveAmounts(b: Book, key: OrderKey)
    requires Core(b) && key in b.orders && b.orders[key].status == LIVE
    ensures var o := b.orders[key];
            && 0 < o.remaining <= U64_MAX && 0 <= o.feeCarry < BPS && 0 < o.terms.price
            && o.openNotional == Ceil(o.remaining, o.terms.price) <= U64_MAX
  {
    hide Ceil, Balanced, NonNegative, Caps.Validate, SingleBase, BoundNonce;
    var o := b.orders[key];
    assert OrderOk(b.market, key, o);
    QuoteMono(o.remaining, o.terms.quantity, o.terms.price, o.terms.price);
  }

  /** A matching trade's amounts are those the fill rule computes. */
  lemma FillIs(b: Book, t: Trade, bidIsMaker: bool)
    requires Core(b) && Matches(b, t) && Settleable(b, t)
    requires t.price == (if bidIsMaker then b.orders[t.buy].terms.price else b.orders[t.sell].terms.price)
    ensures t.quantity <= U64_MAX
    ensures var buy, sell := b.orders[t.buy], b.orders[t.sell];
            && 0 <= buy.remaining <= U64_MAX && 0 <= sell.remaining <= U64_MAX
            && 0 <= buy.feeCarry < BPS && 0 <= sell.feeCarry < BPS
            && var f := Fill(t.quantity, b.market.terms.caps.step, buy.remaining, sell.remaining, buy.terms.price,
                             sell.terms.price, bidIsMaker);
               f.Ok? && FillAgrees(b, t, f.value) && f.value.quote == t.Quote()
  {
    hide Floor, Ceil, Fill, Core, OrderTerms.Asset, OrderTerms.Collateral;
    var buy, sell := b.orders[t.buy], b.orders[t.sell];
    LiveAmounts(b, t.buy);
    LiveAmounts(b, t.sell);
    FillSucceeds(t.quantity, b.market.terms.caps.step, buy.remaining, sell.remaining, buy.terms.price,
                 sell.terms.price, bidIsMaker);
    FillCounts(t.quantity, b.market.terms.caps.step, buy.remaining, sell.remaining, buy.terms.price, sell.terms.price,
               bidIsMaker);
  }

  lemma FillCounts(quantity: u64, step: u64, buyerRemaining: u64, sellerRemaining: u64, bid: u128, ask: u128,
                   bidIsMaker: bool)
    requires Fill(quantity, step, buyerRemaining, sellerRemaining, bid, ask, bidIsMaker).Ok?
    ensures quantity <= buyerRemaining && quantity <= sellerRemaining
    ensures var f := Fill(quantity, step, buyerRemaining, sellerRemaining, bid, ask, bidIsMaker).value;
            f.buyerRemaining == buyerRemaining - quantity && f.sellerRemaining == sellerRemaining - quantity
  {
    hide QuoteDown, QuoteUp;
  }

  /** The fee rule charges what the trade's fees are. */
  lemma FeesAre(b: Book, t: Trade)
    requires Core(b) && Matches(b, t) && Settleable(b, t)
    ensures 0 <= b.orders[t.buy].feeCarry < BPS && 0 <= b.orders[t.sell].feeCarry < BPS
    ensures t.raw <= U64_MAX ==>
              var f := Fee(t.raw, t.buyerRate, b.orders[t.buy].feeCarry);
              f == Ok((FeeOn(t.raw, t.buyerRate, b.orders[t.buy].feeCarry),
                       CarryOn(t.raw, t.buyerRate, b.orders[t.buy].feeCarry)))
    ensures t.Quote() <= U64_MAX ==>
              var f := Fee(t.Quote(), t.sellerRate, b.orders[t.sell].feeCarry);
              f == Ok((FeeOn(t.Quote(), t.sellerRate, b.orders[t.sell].feeCarry),
                       CarryOn(t.Quote(), t.sellerRate, b.orders[t.sell].feeCarry)))
  {
    hide Floor, Ceil, Balanced, NonNegative, Caps.Validate, Caps.ValidateOrder, SingleBase, BoundNonce;
    assert OrderOk(b.market, t.buy, b.orders[t.buy]) && OrderOk(b.market, t.sell, b.orders[t.sell]);
  }

  /** What the two sides of a fill take is there, and what they free fits. */
  ghost predicate SidesRoom(b: Book, buyer: Pubkey, bidAsset: nat, reduction: nat, improvement: nat,
                            seller: Pubkey, askAsset: nat, raw: nat, reduction2: nat) {
    && buyer in b.wallets && seller in b.wallets && bidAsset < ASSETS && askAsset < ASSETS && bidAsset != askAsset
    && b.ledgers.escrow[bidAsset] >= reduction && b.ledgers.escrow[askAsset] >= raw
    && b.ledgers.openNotional >= reduction + reduction2
    && b.wallets[buyer].openNotional >= reduction && b.wallets[seller].openNotional >= reduction2
    && (buyer == seller ==> b.wallets[buyer].openNotional >= reduction + reduction2)
    && b.wallets[buyer].balances[bidAsset] + improvement <= U64_MAX
    && b.ledgers.credits[bidAsset] + improvement <= U64_MAX
  }

  ghost function Left(b: Book, buyer: Pubkey, bidAsset: nat, reduction: int, improvement: int,
                      seller: Pubkey, askAsset: nat, raw: int, reduction2: int): (r: Book)
    requires buyer in b.wallets && seller in b.wallets && bidAsset < ASSETS && askAsset < ASSETS
    ensures r.wallets.Keys == b.wallets.Keys && r.orders == b.orders && r.market == b.market && r.tokens == b.tokens
  {
    Unexpose(Unexpose(Post(Unescrow(Unescrow(b, bidAsset, reduction), askAsset, raw), buyer, bidAsset, improvement),
                      buyer, reduction), seller, reduction2)
  }

  lemma LeftStages(b: Book, buyer: Pubkey, bidAsset: nat, reduction: nat, improvement: nat,
                   seller: Pubkey, askAsset: nat, raw: nat, reduction2: nat)
    requires SidesRoom(b, buyer, bidAsset, reduction, improvement, seller, askAsset, raw, reduction2)
    ensures Unescrow(b, bidAsset, reduction).ledgers.escrow[askAsset] >= raw
    ensures var e := Unescrow(Unescrow(b, bidAsset, reduction), askAsset, raw);
            && e.wallets[buyer].balances[bidAsset] + improvement <= U64_MAX
            && e.ledgers.credits[bidAsset] + improvement <= U64_MAX
            && var p := Post(e, buyer, bidAsset, improvement);
            && p.ledgers.openNotional >= reduction && p.wallets[buyer].openNotional >= reduction
            && var x := Unexpose(p, buyer, reduction);
            && x.ledgers.openNotional >= reduction2 && x.wallets[seller].openNotional >= reduction2
  {
  }

  /** The amounts of a fill are those of the trade it settles. */
  ghost predicate FillAgrees(b: Book, t: Trade, fill: Filled)
    requires Settleable(b, t)
  {
    var buy, sell := b.orders[t.buy], b.orders[t.sell];
    && fill.quote == t.Quote()
    && fill.buyerRemaining == buy.remaining - t.quantity && fill.sellerRemaining == sell.remaining - t.quantity
    && fill.buyerReserved == Ceil(buy.remaining - t.quantity, buy.terms.price)
    && fill.improvement == Improvement(buy, t)
    && fill.buyerNotionalReduction == buy.openNotional - Ceil(buy.remaining - t.quantity, buy.terms.price)
    && fill.sellerNotionalReduction == sell.openNotional - Ceil(sell.remaining - t.quantity, sell.terms.price)
  }

  lemma ImprovementFits(b: Book, t: Trade)
    requires Settleable(b, t) && Fits(SettleOrders(b, t))
    ensures var buy := b.orders[t.buy];
            && b.wallets[t.buy.owner].balances[buy.terms.Asset()] + Improvement(buy, t) <= U64_MAX
            && b.ledgers.credits[buy.terms.Asset()] + Improvement(buy, t) <= U64_MAX
  {
    hide Improvement, Bought, Sold, OrderTerms.Asset;
    var r, a := SettleOrders(b, t), b.orders[t.buy].terms.Asset();
    assert r.wallets[t.buy.owner].balances[a] <= U64_MAX && r.ledgers.credits[a] <= U64_MAX;
  }

  /** The books once the funder has paid into backing. */
  function Funded(b: Book, c: nat, funding: nat, funder: Pubkey, branch: nat, amount: int): (r: Book)
    requires c < COLLATERALS && branch < 2 && funder in b.wallets
    ensures r.wallets.Keys == b.wallets.Keys && r.ledgers.fees == b.ledgers.fees
  {
    if funding == 0 then Post(AddBacking(b, c, amount), funder, Claim(c, 1 - branch), amount) else b
  }

  lemma BackingLeaves(b: Book, c: nat, amount: int)
    requires c < COLLATERALS
    ensures AddBacking(b, c, amount).wallets == b.wallets
            && AddBacking(b, c, amount).ledgers.credits == b.ledgers.credits
    ensures AddBacking(b, c, amount).ledgers.fees == b.ledgers.fees
  {
  }

  lemma PostLeavesFees(b: Book, c: nat, funding: nat, funder: Pubkey, branch: nat, amount: int, recipient: Pubkey,
                       net: int)
    requires c < COLLATERALS && branch < 2 && funder in b.wallets && recipient in b.wallets
    ensures Post(Funded(b, c, funding, funder, branch, amount), recipient, Claim(c, branch), net).ledgers.fees
            == b.ledgers.fees
    ensures funding == 0 ==>
              Funded(b, c, funding, funder, branch, amount)
                == Post(AddBacking(b, c, amount), funder, Claim(c, 1 - branch), amount)
    ensures funding != 0 ==> Funded(b, c, funding, funder, branch, amount) == b
  {
  }

  lemma DeliverFitsFunded(b: Book, c: nat, funding: nat, funder: Pubkey, recipient: Pubkey, branch: nat, amount: nat,
                          fee: nat)
    requires c < COLLATERALS && branch < 2 && funder in b.wallets && recipient in b.wallets && fee <= amount
    requires Fits(Deliver(b, c, funding, funder, recipient, branch, amount, fee))
    ensures funding == 0 ==>
              var f := Post(AddBacking(b, c, amount), funder, Claim(c, 1 - branch), amount);
              && f.wallets[recipient].balances[Claim(c, branch)] + amount - fee <= U64_MAX
              && f.ledgers.credits[Claim(c, branch)] + amount - fee <= U64_MAX
  {
    var r := Deliver(b, c, funding, funder, recipient, branch, amount, fee);
    assert r.wallets[recipient].balances[Claim(c, branch)] <= U64_MAX;
    assert r.ledgers.credits[Claim(c, branch)] <= U64_MAX;
  }

  /** Delivering adds: whatever a delivery leaves within its fields was within them all along. */
  lemma DeliverFits(b: Book, c: nat, funding: nat, funder: Pubkey, recipient: Pubkey, branch: nat, amount: nat,
                    fee: nat)
    requires c < COLLATERALS && branch < 2 && funder in b.wallets && recipient in b.wallets && fee <= amount
    requires Fits(Deliver(b, c, funding, funder, recipient, branch, amount, fee))
    ensures funding == 0 ==> b.ledgers.backing[c] + amount <= U64_MAX
    ensures funding == 0 ==> b.wallets[funder].balances[Claim(c, 1 - branch)] + amount <= U64_MAX
    ensures funding == 0 ==> b.ledgers.credits[Claim(c, 1 - branch)] + amount <= U64_MAX
    ensures b.wallets[recipient].balances[Claim(c, branch)] + amount - fee <= U64_MAX
    ensures b.ledgers.credits[Claim(c, branch)] + amount - fee <= U64_MAX
    ensures b.ledgers.fees[Claim(c, branch)] + fee <= U64_MAX
  {
    var r := Deliver(b, c, funding, funder, recipient, branch, amount, fee);
    assert r.ledgers.backing[c] <= U64_MAX;
    assert r.wallets[funder].balances[Claim(c, 1 - branch)] <= U64_MAX;
    assert r.wallets[recipient].balances[Claim(c, branch)] <= U64_MAX;
    assert r.ledgers.credits[Claim(c, 1 - branch)] <= U64_MAX && r.ledgers.credits[Claim(c, branch)] <= U64_MAX;
    assert r.ledgers.fees[Claim(c, branch)] <= U64_MAX;
  }

  // -------------------------------------------------- one fill, in the handler's order

  /** Both sides leave escrow and exposure, and the buyer's improvement becomes available. */
  ghost function SidesLeave(b: Book, t: Trade): (r: Book)
    requires Settleable(b, t)
    ensures r.wallets.Keys == b.wallets.Keys && r.orders == b.orders && r.market == b.market && r.tokens == b.tokens
  {
    var buy, sell := b.orders[t.buy], b.orders[t.sell];
    Left(b, t.buy.owner, buy.terms.Asset(), buy.openNotional - Ceil(buy.remaining - t.quantity, buy.terms.price),
         Improvement(buy, t),
         t.sell.owner, sell.terms.Asset(), t.raw,
           sell.openNotional - Ceil(sell.remaining - t.quantity, sell.terms.price))
  }

  /** The claims change hands. */
  ghost function BothDelivered(b: Book, t: Trade): (r: Book)
    requires Settleable(b, t)
    ensures r.wallets.Keys == b.wallets.Keys && r.orders == b.orders && r.market == b.market && r.tokens == b.tokens
  {
    var buy, sell := b.orders[t.buy], b.orders[t.sell];
    var based := Deliver(SidesLeave(b, t), t.base, sell.terms.funding, t.sell.owner, buy.terms.recipient,
                         buy.terms.branch,
                         t.raw, FeeOn(t.raw, t.buyerRate, buy.feeCarry));
    Deliver(based, QUOTE, buy.terms.funding, t.buy.owner, sell.terms.recipient, buy.terms.branch,
            t.Quote(), FeeOn(t.Quote(), t.sellerRate, sell.feeCarry))
  }

  /** Both order images are rewritten, and a completed ask returns its surplus. */
  ghost function OrdersWritten(b: Book, t: Trade): (r: Book)
    requires Settleable(b, t)
  {
    var buy, sell := b.orders[t.buy], b.orders[t.sell];
    var asset := sell.terms.Asset();
    var written := PutOrder(PutOrder(BothDelivered(b, t), t.buy, Bought(buy, t)), t.sell, Sold(sell, t));
    Post(Unescrow(written, asset, Surplus(sell, t)), t.sell.owner, asset, Surplus(sell, t))
  }

  function Beside(b: Book, orders: map<OrderKey, Order>, escrow: Amounts): Book {
    b.(orders := orders, ledgers := b.ledgers.(escrow := escrow))
  }

  lemma PostBeside(b: Book, orders: map<OrderKey, Order>, escrow: Amounts, owner: Pubkey, asset: nat, amount: int)
    requires owner in b.wallets && asset < ASSETS
    ensures Post(Beside(b, orders, escrow), owner, asset, amount)
            == Beside(Post(b, owner, asset, amount), orders, escrow)
  {
  }

  /** Deliveries touch neither orders nor escrow. */
  lemma DeliverBeside(b: Book, orders: map<OrderKey, Order>, escrow: Amounts, c: nat, funding: nat, funder: Pubkey,
                      recipient: Pubkey, branch: nat, amount: int, fee: int)
    requires c < COLLATERALS && branch < 2 && funder in b.wallets && recipient in b.wallets
    ensures Deliver(Beside(b, orders, escrow), c, funding, funder, recipient, branch, amount, fee)
         == Beside(Deliver(b, c, funding, funder, recipient, branch, amount, fee), orders, escrow)
  {
    hide Post;
    var funded := b;
    if funding == 0 {
      assert AddBacking(Beside(b, orders, escrow), c, amount) == Beside(AddBacking(b, c, amount), orders, escrow);
      PostBeside(AddBacking(b, c, amount), orders, escrow, funder, Claim(c, 1 - branch), amount);
      funded := Post(AddBacking(b, c, amount), funder, Claim(c, 1 - branch), amount);
    }
    PostBeside(funded, orders, escrow, recipient, Claim(c, branch), amount - fee);
  }

  /** The handler's order of updates and the books' order agree: a fill in either is the same trade. */
  lemma FillOrdersAgree(b: Book, t: Trade)
    requires Core(b) && Matches(b, t) && Settleable(b, t)
    ensures OrdersWritten(b, t) == Settle(b, t)
  {
    hide Post, Deliver, Core, Matches, FeeOn, Ceil, Floor, Improvement, Surplus, SettleOrders, SidesLeave, Bought, Sold,
      OrderTerms.Asset, OrderTerms.Collateral;
    var buy, sell := b.orders[t.buy], b.orders[t.sell];
    var orders, escrow := SettleOrders(b, t).orders, SettleOrders(b, t).ledgers.escrow;
    SidesAgree(b, t);
    var sides := SidesLeave(b, t);
    var fee, fee2 := FeeOn(t.raw, t.buyerRate, buy.feeCarry), FeeOn(t.Quote(), t.sellerRate, sell.feeCarry);
    DeliverBeside(sides, orders, escrow, t.base, sell.terms.funding, t.sell.owner, buy.terms.recipient,
                  buy.terms.branch, t.raw, fee);
    var based := Deliver(sides, t.base, sell.terms.funding, t.sell.owner, buy.terms.recipient, buy.terms.branch, t.raw,
                         fee);
    DeliverBeside(based, orders, escrow, QUOTE, buy.terms.funding, t.buy.owner, sell.terms.recipient, buy.terms.branch,
                  t.Quote(), fee2);
    DeliverKeepsEscrow(sides, t.base, sell.terms.funding, t.sell.owner, buy.terms.recipient, buy.terms.branch, t.raw,
                       fee);
    DeliverKeepsEscrow(based, QUOTE, buy.terms.funding, t.buy.owner, sell.terms.recipient, buy.terms.branch, t.Quote(),
                       fee2);
    var delivered := BothDelivered(b, t);
    assert Unescrow(PutOrder(PutOrder(delivered, t.buy, Bought(buy, t)), t.sell, Sold(sell, t)), sell.terms.Asset(),
                    Surplus(sell, t))
        == Beside(delivered, orders, escrow);
  }

  lemma DeliverKeepsEscrow(b: Book, c: nat, funding: nat, funder: Pubkey,
                           recipient: Pubkey, branch: nat, amount: int, fee: int)
    requires c < COLLATERALS && branch < 2 && funder in b.wallets && recipient in b.wallets
    ensures Deliver(b, c, funding, funder, recipient, branch, amount, fee).ledgers.escrow == b.ledgers.escrow
  {
  }

  /** The sides leave what the books' order of updates leaves, but for the orders and the surplus. */
  lemma SidesAgree(b: Book, t: Trade)
    requires Core(b) && Matches(b, t) && Settleable(b, t)
    ensures var orders, escrow := SettleOrders(b, t).orders, SettleOrders(b, t).ledgers.escrow;
            && Beside(SidesLeave(b, t), orders, escrow) == SettleOrders(b, t)
            && Unescrow(SidesLeave(b, t), b.orders[t.sell].terms.Asset(), Surplus(b.orders[t.sell], t)).ledgers.escrow
               == escrow
  {
    hide Floor, Ceil, Core, Matches, Improvement, Bought, Sold, Post, SetOrder, Unexpose, Unescrow, OrderTerms.Asset;
    var buy, sell := b.orders[t.buy], b.orders[t.sell];
    SideAmounts(b, t);
    var improved := Post(b, t.buy.owner, buy.terms.Asset(), Improvement(buy, t));
    var reduction := buy.openNotional - Ceil(buy.remaining - t.quantity, buy.terms.price);
    var reduction2 := sell.openNotional - Ceil(sell.remaining - t.quantity, sell.terms.price);
    PostUnescrows(b, buy.terms.Asset(), reduction, sell.terms.Asset(), t.raw, t.buy.owner, Improvement(buy, t));
    var posted := Unescrow(Unescrow(improved, buy.terms.Asset(), reduction), sell.terms.Asset(), t.raw);
    SetOrdersAre(improved, t.buy, Bought(buy, t), reduction, t.sell, Sold(sell, t), t.raw, Surplus(sell, t),
                 reduction2);
  }

  lemma PostUnescrows(b: Book, asset: nat, amount: int, other: nat, raw: int, owner: Pubkey, improvement: int)
    requires asset < ASSETS && other < ASSETS && owner in b.wallets
    ensures Post(Unescrow(Unescrow(b, asset, amount), other, raw), owner, asset, improvement)
         == Unescrow(Unescrow(Post(b, owner, asset, improvement), asset, amount), other, raw)
  {
  }

  /** Rewriting an order releases what its reservation and its notional lose. */
  lemma SetOrdersAre(b: Book, buyKey: OrderKey, buy: Order, reduction: int, sellKey: OrderKey, sell: Order, raw: int,
                     surplus: int, reduction2: int)
    requires buyKey in b.orders && sellKey in b.orders && buyKey != sellKey
    requires buyKey.owner in b.wallets && sellKey.owner in b.wallets
    requires buy.terms == b.orders[buyKey].terms && sell.terms == b.orders[sellKey].terms
    requires buy.terms.Asset() < ASSETS && sell.terms.Asset() < ASSETS
    requires b.orders[buyKey].reserved - buy.reserved == reduction == b.orders[buyKey].openNotional - buy.openNotional
    requires b.orders[sellKey].reserved - sell.reserved == raw + surplus
    requires b.orders[sellKey].openNotional - sell.openNotional == reduction2
    ensures var left := Unexpose(Unexpose(Unescrow(Unescrow(b, buy.terms.Asset(), reduction), sell.terms.Asset(), raw),
                                          buyKey.owner, reduction), sellKey.owner, reduction2);
            var rewritten := SetOrder(SetOrder(b, buyKey, buy), sellKey, sell);
            && Beside(left, rewritten.orders, rewritten.ledgers.escrow) == rewritten
            && Unescrow(left, sell.terms.Asset(), surplus).ledgers.escrow == rewritten.ledgers.escrow
  {
    hide OrderTerms.Asset, SetOrder, Unexpose, Unescrow;
    var first := PutOrder(Unexpose(Unescrow(b, buy.terms.Asset(), reduction), buyKey.owner, reduction), buyKey, buy);
    SetOrderIs(b, buyKey, buy, reduction, reduction);
    SetOrderIs(first, sellKey, sell, raw + surplus, reduction2);
    LeftIs(b, buyKey, buy, reduction, sellKey, sell, raw, surplus, reduction2);
  }

  lemma SetOrderIs(b: Book, key: OrderKey, o: Order, reserved: int, notional: int)
    requires key in b.orders && key.owner in b.wallets && o.terms == b.orders[key].terms && o.terms.Asset() < ASSETS
    requires b.orders[key].reserved - o.reserved == reserved && b.orders[key].openNotional - o.openNotional == notional
    ensures SetOrder(b, key, o)
            == PutOrder(Unexpose(Unescrow(b, o.terms.Asset(), reserved), key.owner, notional), key, o)
  {
    hide OrderTerms.Asset;
  }

  lemma LeftIs(b: Book, buyKey: OrderKey, buy: Order, reduction: int, sellKey: OrderKey, sell: Order, raw: int,
               surplus: int, reduction2: int)
    requires buyKey.owner in b.wallets && sellKey.owner in b.wallets
    requires buy.terms.Asset() < ASSETS && sell.terms.Asset() < ASSETS
    ensures var left := Unexpose(Unexpose(Unescrow(Unescrow(b, buy.terms.Asset(), reduction), sell.terms.Asset(), raw),
                                          buyKey.owner, reduction), sellKey.owner, reduction2);
            var first := PutOrder(Unexpose(Unescrow(b, buy.terms.Asset(), reduction), buyKey.owner, reduction), buyKey,
                                  buy);
            var both := PutOrder(Unexpose(Unescrow(first, sell.terms.Asset(), raw + surplus), sellKey.owner,
                                          reduction2), sellKey, sell);
            && Beside(left, both.orders, both.ledgers.escrow) == both
            && Unescrow(left, sell.terms.Asset(), surplus).ledgers.escrow == both.ledgers.escrow
  {
    hide OrderTerms.Asset, Unescrow, Unexpose;
    var x := Unescrow(b, buy.terms.Asset(), reduction);
    UnescrowApart(x, buyKey, buy, buyKey.owner, reduction, sell.terms.Asset(), raw + surplus);
    UnexposeApart(Unexpose(Unescrow(x, sell.terms.Asset(), raw + surplus), buyKey.owner, reduction), buyKey, buy,
                  sellKey.owner, reduction2);
    UnescrowTwice(x, buyKey.owner, reduction, sellKey.owner, reduction2, sell.terms.Asset(), raw, surplus);
  }

  /** Escrow moves independently of orders and exposure. */
  lemma UnescrowApart(b: Book, key: OrderKey, o: Order, owner: Pubkey, notional: int, asset: nat, amount: int)
    requires owner in b.wallets && asset < ASSETS
    ensures Unescrow(PutOrder(Unexpose(b, owner, notional), key, o), asset, amount)
         == PutOrder(Unexpose(Unescrow(b, asset, amount), owner, notional), key, o)
  {
  }

  lemma UnexposeApart(b: Book, key: OrderKey, o: Order, owner: Pubkey, notional: int)
    requires owner in b.wallets
    ensures Unexpose(PutOrder(b, key, o), owner, notional) == PutOrder(Unexpose(b, owner, notional), key, o)
  {
  }

  lemma UnescrowTwice(b: Book, owner: Pubkey, x: int, other: Pubkey, y: int, asset: nat, raw: int, surplus: int)
    requires owner in b.wallets && other in b.wallets && asset < ASSETS
    ensures var left := Unexpose(Unexpose(Unescrow(b, asset, raw), owner, x), other, y);
            var both := Unexpose(Unexpose(Unescrow(b, asset, raw + surplus), owner, x), other, y);
            && Beside(left, both.orders, both.ledgers.escrow) == both
            && Unescrow(left, asset, surplus).ledgers.escrow == both.ledgers.escrow
  {
  }

  /** What each side's order gives up in a fill. */
  lemma SideAmounts(b: Book, t: Trade)
    requires Core(b) && Matches(b, t) && Settleable(b, t)
    ensures var buy, sell := b.orders[t.buy], b.orders[t.sell];
            && Bought(buy, t).terms == buy.terms && Sold(sell, t).terms == sell.terms
            && buy.reserved - Bought(buy, t).reserved
               == buy.openNotional - Ceil(buy.remaining - t.quantity, buy.terms.price)
            && buy.openNotional - Bought(buy, t).openNotional
               == buy.openNotional - Ceil(buy.remaining - t.quantity, buy.terms.price)
            && sell.reserved - Sold(sell, t).reserved == t.raw + Surplus(sell, t)
            && Sold(sell, t).openNotional == Ceil(sell.remaining - t.quantity, sell.terms.price)
  {
    hide Floor, Ceil, CarryOn, Balanced, NonNegative, Caps.ValidateOrder, Caps.Validate, SingleBase, BoundNonce,
      Improvement;
    var buy, sell := b.orders[t.buy], b.orders[t.sell];
    assert OrderOk(b.market, t.buy, buy) && OrderOk(b.market, t.sell, sell);
  }

  // ------------------------------------------------------------ room for a fill

  lemma FitsBelow(b: Book, r: Book)
    requires Grows(b, r) && Fits(r)
    ensures Fits(b)
  {
  }

  /** Sound books fit their fields: everything available or earned is backed or in a pool. */
  lemma SoundFits(f: Flight)
    requires Steady(f)
    ensures Fits(f.book)
  {
    hide OrdersOk, TermsOk, Market.Payouts;
    var b := f.book;
    forall a | 0 <= a < ASSETS
      ensures b.ledgers.credits[a] <= U64_MAX && (IsClaim(a) ==> b.ledgers.fees[a] <= U64_MAX)
      ensures b.ledgers.backing[CollateralOf(a)] <= U64_MAX
    {
      LiabilityFits(f, a);
    }
    forall c | 0 <= c < COLLATERALS
      ensures b.ledgers.backing[c] <= U64_MAX
    {
      assert CollateralOf(Underlying(c)) == c;
    }
    forall o, a | o in b.wallets && 0 <= a < ASSETS
      ensures b.wallets[o].balances[a] <= U64_MAX
    {
      BalanceInCredits(b, o, a);
    }
  }

  lemma BalanceInCredits(b: Book, o: Pubkey, a: nat)
    requires Core(b) && o in b.wallets && a < ASSETS
    ensures b.wallets[o].balances[a] <= b.ledgers.credits[a]
  {
    hide OrdersOk, TermsOk;
    forall w | w in b.wallets
      ensures BalanceOf(a)(w, b.wallets[w]) >= 0
    {
    }
    SumAtLeast(b.wallets, o, BalanceOf(a));
  }

  /** Every part of a liability fits u64: a pool bounds an underlying's, backing a claim's. */
  lemma LiabilityFits(f: Flight, a: nat)
    requires Steady(f) && a < ASSETS
    ensures f.book.ledgers.credits[a] <= U64_MAX && f.book.ledgers.backing[CollateralOf(a)] <= U64_MAX
    ensures IsClaim(a) ==> f.book.ledgers.fees[a] <= U64_MAX && 0 <= f.minted[a] <= U64_MAX
  {
    hide Balanced, OrdersOk, TermsOk;
    var b := f.book;
    var c := CollateralOf(a);
    LedgersNonNegative(b, a);
    BackingFits(b, c);
    if IsClaim(a) {
      assert a == Claim(c, 0) || a == Claim(c, 1);
      assert CollateralBacked(b.market, b.ledgers, b.tokens, f.minted, c);
      assert ClaimCovered(b.ledgers, b.tokens, f.minted, a);
    } else {
      assert a == Underlying(c);
      assert b.ledgers.Liability(Underlying(c)) <= U64_MAX;
    }
  }

  /** Escrow holds every open order's reservation, and both sides' when they reserve in one asset. */
  lemma EscrowHolds(b: Book, key: OrderKey)
    requires Core(b) && key in b.orders
    ensures b.orders[key].terms.Asset() < ASSETS
    ensures b.ledgers.escrow[b.orders[key].terms.Asset()] >= b.orders[key].reserved
  {
    hide Caps.ValidateOrder, Caps.Validate, Ceil, NonNegative;
    var a := b.orders[key].terms.Asset();
    forall k | k in b.orders
      ensures ReservedIn(a)(k, b.orders[k]) >= 0
    {
      assert OrderOk(b.market, k, b.orders[k]);
    }
    SumAtLeast(b.orders, key, ReservedIn(a));
  }

  lemma NotionalsNonNegative(b: Book)
    requires Core(b)
    ensures forall k | k in b.orders :: b.orders[k].openNotional >= 0
    ensures forall o | o in b.wallets :: b.wallets[o].openNotional >= 0
  {
    hide Caps.ValidateOrder, Caps.Validate, Ceil, NonNegative;
    forall k | k in b.orders
      ensures b.orders[k].openNotional >= 0
    {
      assert OrderOk(b.market, k, b.orders[k]);
    }
    forall o | o in b.wallets
      ensures b.wallets[o].openNotional >= 0
    {
      SumNonNegative(b.orders, ExposureOf(o));
    }
  }

  /** A wallet's exposure holds its orders' notionals, the market's holds the wallets'. */
  lemma ExposureHolds(b: Book, key: OrderKey, other: OrderKey)
    requires Core(b) && key in b.orders && other in b.orders && key != other
    ensures key.owner in b.wallets && other.owner in b.wallets
    ensures b.wallets[key.owner].openNotional >= b.orders[key].openNotional >= 0
    ensures b.wallets[other.owner].openNotional >= b.orders[other].openNotional >= 0
    ensures key.owner == other.owner ==>
              b.wallets[key.owner].openNotional >= b.orders[key].openNotional + b.orders[other].openNotional
    ensures b.ledgers.openNotional >= b.orders[key].openNotional + b.orders[other].openNotional
  {
    hide NonNegative, OrdersOk, TermsOk;
    NotionalsNonNegative(b);
    SumAtLeast(b.orders, key, ExposureOf(key.owner));
    SumAtLeast(b.orders, other, ExposureOf(other.owner));
    if key.owner == other.owner {
      SumAtLeastTwo(b.orders, key, other, ExposureOf(key.owner));
      SumAtLeast(b.wallets, key.owner, WalletExposure());
    } else {
      SumAtLeastTwo(b.wallets, key.owner, other.owner, WalletExposure());
    }
  }

  /** Everything one fill subtracts is there. */
  lemma SidesHaveRoom(b: Book, t: Trade)
    requires Core(b) && Matches(b, t) && Settleable(b, t)
    ensures var buy, sell := b.orders[t.buy], b.orders[t.sell];
            var reduction := buy.openNotional - Ceil(buy.remaining - t.quantity, buy.terms.price);
            var reduction2 := sell.openNotional - Ceil(sell.remaining - t.quantity, sell.terms.price);
            && buy.terms.Asset() != sell.terms.Asset()
            && 0 <= reduction <= buy.openNotional && 0 <= reduction2 <= sell.openNotional
            && b.ledgers.escrow[buy.terms.Asset()] >= reduction
            && b.ledgers.escrow[sell.terms.Asset()] >= t.raw + Surplus(sell, t)
            && b.ledgers.openNotional >= reduction + reduction2
            && b.wallets[t.buy.owner].openNotional >= reduction && b.wallets[t.sell.owner].openNotional >= reduction2
            && (t.buy.owner == t.sell.owner ==> b.wallets[t.buy.owner].openNotional >= reduction + reduction2)
  {
    hide Floor, Ceil, Balanced, NonNegative, Caps.ValidateOrder, Caps.Validate, BoundNonce, Improvement,
      OrderTerms.Asset;
    var buy, sell := b.orders[t.buy], b.orders[t.sell];
    assert OrderOk(b.market, t.buy, buy) && OrderOk(b.market, t.sell, sell);
    QuoteMono(buy.remaining - t.quantity, buy.remaining, buy.terms.price, buy.terms.price);
    QuoteMono(sell.remaining - t.quantity, sell.remaining, sell.terms.price, sell.terms.price);
    EscrowHolds(b, t.buy);
    EscrowHolds(b, t.sell);
    ExposureHolds(b, t.buy, t.sell);
    SidesFundApart(b, t);
  }

  lemma SidesFundApart(b: Book, t: Trade)
    requires Core(b) && Matches(b, t) && Settleable(b, t)
    ensures b.orders[t.buy].terms.Asset() != b.orders[t.sell].terms.Asset()
  {
    hide Floor, Ceil, Balanced, NonNegative, Caps.ValidateOrder, Caps.Validate, BoundNonce;
    assert OrderOk(b.market, t.sell, b.orders[t.sell]);
  }

  /** Every stage of one fill stays within its fields. */
  lemma StagesFit(f: Flight, t: Trade)
    requires Steady(f) && Matches(f.book, t) && Settleable(f.book, t)
    ensures Fits(SettleOrders(f.book, t)) && Fits(DeliverBase(f.book, t)) && Fits(DeliverQuote(f.book, t))
    ensures Fits(Settle(f.book, t))
    ensures forall a | 0 <= a < ASSETS :: 0 <= SettleMints(f.book, f.minted, t)[a] - f.minted[a]
    ensures forall a | 0 <= a < ASSETS && IsClaim(a) :: SettleMints(f.book, f.minted, t)[a] <= U64_MAX
  {
    hide Fits, Grows, Core, Backed, Bounded, Matches, Settle, SettleOrders, DeliverBase, DeliverQuote, SettleMints,
      Market.Payouts;
    SettleKeepsBooks(f.book, f.minted, t);
    var after := Flight(Settle(f.book, t), SettleMints(f.book, f.minted, t));
    SoundFits(after);
    SettleStagesGrow(f.book, t);
    FitsBelow(SettleOrders(f.book, t), Settle(f.book, t));
    FitsBelow(DeliverBase(f.book, t), Settle(f.book, t));
    FitsBelow(DeliverQuote(f.book, t), Settle(f.book, t));
    forall a | 0 <= a < ASSETS && IsClaim(a)
      ensures SettleMints(f.book, f.minted, t)[a] <= U64_MAX
    {
      LiabilityFits(after, a);
    }
    MintsOnlyGrow(f.book, f.minted, t);
  }

  lemma MintsOnlyGrow(b: Book, minted: Amounts, t: Trade)
    requires Core(b) && Matches(b, t) && Settleable(b, t)
    ensures forall a | 0 <= a < ASSETS :: 0 <= SettleMints(b, minted, t)[a] - minted[a]
  {
    hide SettleMints, Floor, Core;
    forall a | 0 <= a < ASSETS
      ensures 0 <= SettleMints(b, minted, t)[a] - minted[a]
    {
      SettleMintsAt(b, minted, t, a);
    }
  }

  lemma WrittenRoom(b: Book, t: Trade)
    requires Settleable(b, t) && ImagesReady(b, t)
    ensures var w, sell := ImagesWritten(b, t), b.orders[t.sell];
            && t.sell in w.orders && w.orders[t.sell].terms == sell.terms
            && (w.orders[t.sell].remaining == 0 <==> sell.remaining == t.quantity)
            && (sell.remaining == t.quantity ==>
                  var asset := sell.terms.Asset();
                  && w.orders[t.sell].reserved == Surplus(sell, t) && Surplus(sell, t) >= 0
                  && w.ledgers.escrow[asset] >= Surplus(sell, t)
                  && w.wallets[t.sell.owner].balances[asset] + Surplus(sell, t) <= U64_MAX
                  && w.ledgers.credits[asset] + Surplus(sell, t) <= U64_MAX)
  {
    hide Ceil, Floor, OrderTerms.Asset, Improvement, FeeOn, CarryOn, BothDelivered, Bought;
  }

  // ------------------------------------------------------- no guard of a fill fires

  /** What a fill owes the mints of one collateral fits. */
  ghost predicate MintRoom(minted: Amounts, c: nat, funding: nat, amount: int)
    requires c < COLLATERALS
  {
    funding == 0 ==> minted[Claim(c, 0)] + amount <= U64_MAX && minted[Claim(c, 1)] + amount <= U64_MAX
  }

  lemma MintsHaveRoom(f: Flight, t: Trade)
    requires Steady(f) && Matches(f.book, t) && Settleable(f.book, t)
    ensures var buy, sell := f.book.orders[t.buy], f.book.orders[t.sell];
            && MintRoom(f.minted, t.base, sell.terms.funding, t.raw)
            && MintRoom(DeliverMints(f.minted, t.base, sell.terms.funding, t.raw), QUOTE, buy.terms.funding, t.Quote())
  {
    hide Steady, Matches, Fits, Floor, Settle, SettleOrders, DeliverBase, DeliverQuote;
    StagesFit(f, t);
    var after := SettleMints(f.book, f.minted, t);
    assert after[Claim(t.base, 0)] <= U64_MAX && after[Claim(t.base, 1)] <= U64_MAX;
    assert after[Claim(QUOTE, 0)] <= U64_MAX && after[Claim(QUOTE, 1)] <= U64_MAX;
  }

  /** Fields fit beside whatever orders and escrow. */
  lemma FitsBeside(b: Book, orders: map<OrderKey, Order>, escrow: Amounts)
    ensures Fits(Beside(b, orders, escrow)) <==> Fits(b)
  {
  }

  lemma DeliveriesFit(f: Flight, t: Trade)
    requires Steady(f) && Matches(f.book, t) && Settleable(f.book, t)
    ensures var b := f.book;
            var buy, sell := b.orders[t.buy], b.orders[t.sell];
            && Fits(Deliver(SidesLeave(b, t), t.base, sell.terms.funding, t.sell.owner, buy.terms.recipient,
                            buy.terms.branch,
                            t.raw, FeeOn(t.raw, t.buyerRate, buy.feeCarry)))
            && Fits(BothDelivered(b, t))
  {
    hide Core, Backed, Bounded, Matches, Fits, Floor, Ceil, SidesLeave, SettleOrders, Deliver, Settle, FeeOn,
      Market.Payouts, OrderTerms.Collateral, OrderTerms.Asset;
    var b := f.book;
    var buy, sell := b.orders[t.buy], b.orders[t.sell];
    StagesFit(f, t);
    SidesAgree(b, t);
    var orders, escrow := SettleOrders(b, t).orders, SettleOrders(b, t).ledgers.escrow;
    var fee, fee2 := FeeOn(t.raw, t.buyerRate, buy.feeCarry), FeeOn(t.Quote(), t.sellerRate, sell.feeCarry);
    var sides := SidesLeave(b, t);
    DeliverBeside(sides, orders, escrow, t.base, sell.terms.funding, t.sell.owner, buy.terms.recipient,
                  buy.terms.branch, t.raw, fee);
    var based := Deliver(sides, t.base, sell.terms.funding, t.sell.owner, buy.terms.recipient, buy.terms.branch, t.raw,
                         fee);
    FitsBeside(based, orders, escrow);
    DeliverBeside(based, orders, escrow, QUOTE, buy.terms.funding, t.buy.owner, sell.terms.recipient, buy.terms.branch,
                  t.Quote(), fee2);
    FitsBeside(BothDelivered(b, t), orders, escrow);
  }

  lemma ImagesAreReady(f: Flight, t: Trade)
    requires Steady(f) && Matches(f.book, t) && Settleable(f.book, t)
    ensures ImagesReady(f.book, t)
  {
    hide Core, Backed, Bounded, Fits, Floor, Ceil, SidesLeave, SettleOrders, Deliver, FeeOn, Market.Payouts,
      BothDelivered, Improvement, OrderTerms.Collateral, OrderTerms.Asset, Surplus;
    var b := f.book;
    var buy, sell := b.orders[t.buy], b.orders[t.sell];
    LiveAmounts(b, t.buy);
    LiveAmounts(b, t.sell);
    LiveCounts(b, t.buy);
    LiveCounts(b, t.sell);
    SidesHaveRoom(b, t);
    TradeAmounts(b, t);
    SurplusHasRoom(f, t);
  }

  lemma LiveCounts(b: Book, key: OrderKey)
    requires Core(b) && key in b.orders && b.orders[key].status == LIVE
    ensures b.orders[key].filled + b.orders[key].remaining <= U64_MAX
  {
    hide Ceil, Balanced, NonNegative, Caps.Validate, Caps.ValidateOrder, SingleBase, BoundNonce;
    assert OrderOk(b.market, key, b.orders[key]);
  }

  lemma SurplusHasRoom(f: Flight, t: Trade)
    requires Steady(f) && Matches(f.book, t) && Settleable(f.book, t)
    ensures var d, sell := BothDelivered(f.book, t), f.book.orders[t.sell];
            var asset := sell.terms.Asset();
            && Surplus(sell, t) <= d.ledgers.escrow[asset]
            && d.wallets[t.sell.owner].balances[asset] + Surplus(sell, t) <= U64_MAX
            && d.ledgers.credits[asset] + Surplus(sell, t) <= U64_MAX
  {
    hide Core, Backed, Bounded, Matches, Floor, Ceil, Improvement, FeeOn, Market.Payouts, OrderTerms.Collateral,
      OrderTerms.Asset, Surplus, BothDelivered, Settle, SettleOrders, DeliverBase, DeliverQuote;
    var b := f.book;
    var d, sell := BothDelivered(b, t), b.orders[t.sell];
    var asset := sell.terms.Asset();
    StagesFit(f, t);
    FillOrdersAgree(b, t);
    assert Settle(b, t).wallets[t.sell.owner].balances[asset] <= U64_MAX
           && Settle(b, t).ledgers.credits[asset] <= U64_MAX;
    hide Fits;
    SidesHaveRoom(b, t);
    DeliveredEscrow(b, t);
  }

  lemma DeliveredEscrow(b: Book, t: Trade)
    requires Core(b) && Matches(b, t) && Settleable(b, t)
    requires b.orders[t.buy].terms.Asset() != b.orders[t.sell].terms.Asset()
    ensures BothDelivered(b, t).ledgers.escrow[b.orders[t.sell].terms.Asset()]
            == b.ledgers.escrow[b.orders[t.sell].terms.Asset()] - t.raw
  {
    hide Core, Matches, Floor, Ceil, Improvement, FeeOn, Deliver, OrderTerms.Collateral, OrderTerms.Asset;
    var buy, sell := b.orders[t.buy], b.orders[t.sell];
    var sides := SidesLeave(b, t);
    var fee, fee2 := FeeOn(t.raw, t.buyerRate, buy.feeCarry), FeeOn(t.Quote(), t.sellerRate, sell.feeCarry);
    DeliverKeepsEscrow(sides, t.base, sell.terms.funding, t.sell.owner, buy.terms.recipient, buy.terms.branch, t.raw,
                       fee);
    var based := Deliver(sides, t.base, sell.terms.funding, t.sell.owner, buy.terms.recipient, buy.terms.branch, t.raw,
                         fee);
    DeliverKeepsEscrow(based, QUOTE, buy.terms.funding, t.buy.owner, sell.terms.recipient, buy.terms.branch, t.Quote(),
                       fee2);
  }

  /** Every check of a fill passes. */
  ghost predicate FillRoom(f: Flight, t: Trade)
    requires Settleable(f.book, t)
  {
    var b := f.book;
    var buy, sell := b.orders[t.buy], b.orders[t.sell];
    var reduction := buy.openNotional - Ceil(buy.remaining - t.quantity, buy.terms.price);
    var reduction2 := sell.openNotional - Ceil(sell.remaining - t.quantity, sell.terms.price);
    && reduction >= 0 && reduction2 >= 0 && Improvement(buy, t) >= 0
    && SidesRoom(b, t.buy.owner, buy.terms.Asset(), reduction, Improvement(buy, t), t.sell.owner, sell.terms.Asset(),
                 t.raw, reduction2)
    && MintRoom(f.minted, t.base, sell.terms.funding, t.raw)
    && MintRoom(DeliverMints(f.minted, t.base, sell.terms.funding, t.raw), QUOTE, buy.terms.funding, t.Quote())
    && 0 <= FeeOn(t.raw, t.buyerRate, buy.feeCarry) <= t.raw
    && 0 <= FeeOn(t.Quote(), t.sellerRate, sell.feeCarry) <= t.Quote()
    && Fits(Deliver(SidesLeave(b, t), t.base, sell.terms.funding, t.sell.owner, buy.terms.recipient, buy.terms.branch,
                    t.raw, FeeOn(t.raw, t.buyerRate, buy.feeCarry)))
    && Fits(BothDelivered(b, t)) && ImagesReady(b, t)
  }

  /** In sound books every check of a matching fill passes. */
  lemma FillHasRoom(f: Flight, t: Trade)
    requires Steady(f) && Matches(f.book, t) && Settleable(f.book, t)
    ensures FillRoom(f, t)
  {
    hide Core, Backed, Bounded, Matches, Fits, Floor, Ceil, Improvement, SidesLeave, SettleOrders, Deliver, FeeOn,
      Market.Payouts, BothDelivered, Surplus, OrderTerms.Collateral, OrderTerms.Asset, ImagesReady, MintRoom,
      DeliverBase, DeliverQuote, Settle, SettleMints;
    SidesHaveRoom(f.book, t);
    StagesFit(f, t);
    ImprovementFits(f.book, t);
    TradeAmounts(f.book, t);
    MintsHaveRoom(f, t);
    DeliveriesFit(f, t);
    ImagesAreReady(f, t);
  }

  lemma SettledInOrder(f: Flight, t: Trade)
    requires Steady(f) && Matches(f.book, t) && Settleable(f.book, t)
    ensures SettleNext(f, t) == Flight(OrdersWritten(f.book, t), SettleMints(f.book, f.minted, t))
  {
    hide Core, Backed, Bounded, Matches, Settle, SettleOrders, OrdersWritten, SettleMints, Market.Payouts;
    FillOrdersAgree(f.book, t);
  }

  lemma RoomForImages(f: Flight, t: Trade, fill: Filled)
    requires Settleable(f.book, t) && FillRoom(f, t) && FillAgrees(f.book, t, fill)
    ensures ImagesReady(f.book, t) && fill.quote == t.Quote()
    ensures t.buy in f.book.orders && t.sell in f.book.orders
  {
    hide ImagesReady, Fits, MintRoom, SidesRoom, Deliver, SidesLeave, BothDelivered;
  }

  lemma RoomForSides(f: Flight, t: Trade, fill: Filled)
    requires Settleable(f.book, t) && FillRoom(f, t) && FillAgrees(f.book, t, fill)
    ensures t.buy in f.book.orders && t.sell in f.book.orders && t.base < COLLATERALS
    ensures var b := f.book;
            var buy, sell := b.orders[t.buy], b.orders[t.sell];
            && SidesRoom(b, t.buy.owner, buy.terms.Asset(), fill.buyerNotionalReduction, fill.improvement,
                         t.sell.owner, sell.terms.Asset(), t.raw, fill.sellerNotionalReduction)
            && t.buy.owner in b.wallets && t.sell.owner in b.wallets && buy.terms.Asset() < ASSETS
            && sell.terms.Asset() < ASSETS
            && SidesLeave(b, t) == Left(b, t.buy.owner, buy.terms.Asset(), fill.buyerNotionalReduction,
                                        fill.improvement,
                                        t.sell.owner, sell.terms.Asset(), t.raw, fill.sellerNotionalReduction)
            && MintRoom(f.minted, t.base, sell.terms.funding, t.raw)
            && MintRoom(DeliverMints(f.minted, t.base, sell.terms.funding, t.raw), QUOTE, buy.terms.funding, fill.quote)
            && SettleMints(b, f.minted, t)
               == DeliverMints(DeliverMints(f.minted, t.base, sell.terms.funding, t.raw), QUOTE, buy.terms.funding,
                               fill.quote)
  {
    hide ImagesReady, Fits, MintRoom, SidesRoom, Deliver, BothDelivered, Left, Ceil, Floor, Improvement, FeeOn,
      DeliverMints, OrderTerms.Asset;
  }

  /** A planned maker and quantity that match the taker's order as the trade t. */
  ghost predicate PlannedFill(b: Book, r: Request, config: Config, key: OrderKey, quantity: u64, t: Trade) {
    && Matches(b, t) && Settleable(b, t)
    && key in b.orders && r.Key() in b.orders && b.orders[r.Key()].terms == r.terms && r.terms.side < 2
    && t == TradeOf(b.market, config, r, b.orders[key], Pick(key, quantity))
    && 1 <= t.base <= MAX_BASES
    && BaseRaw(quantity, b.market.legs[t.base - 1].scale, r.live[t.base].multiplier, false) == Ok(t.raw)
  }

  /** The two orders of a planned fill, and what the rules compute for them. */
  ghost predicate Computed(b: Book, r: Request, config: Config, key: OrderKey, quantity: u64, t: Trade)
    requires Settleable(b, t)
  {
    var buy, sell := b.orders[t.buy], b.orders[t.sell];
    var takerIsBuy := r.terms.side == 0;
    && t.buy in b.orders && t.sell in b.orders
    && t.buy == (if takerIsBuy then r.Key() else key) && t.sell == (if takerIsBuy then key else r.Key())
    && t.quantity == quantity && sell.terms.Collateral() == t.base && 1 <= t.base <= MAX_BASES
    && 0 < t.raw <= sell.reserved && t.raw <= U64_MAX
    && 0 <= buy.remaining <= U64_MAX && 0 <= sell.remaining <= U64_MAX && 0 <= buy.feeCarry < BPS
    && 0 <= sell.feeCarry < BPS
    && BaseRaw(quantity, b.market.legs[t.base - 1].scale, r.live[t.base].multiplier, false) == Ok(t.raw)
    && var filled := Fill(quantity, b.market.terms.caps.step, buy.remaining, sell.remaining, buy.terms.price,
                          sell.terms.price, !takerIsBuy);
    && filled.Ok? && FillAgrees(b, t, filled.value)
    && Fee(t.raw, if takerIsBuy then config.takerBps else config.makerBps, buy.feeCarry)
       == Ok((FeeOn(t.raw, t.buyerRate, buy.feeCarry), CarryOn(t.raw, t.buyerRate, buy.feeCarry)))
    && Fee(filled.value.quote, if takerIsBuy then config.makerBps else config.takerBps, sell.feeCarry)
       == Ok((FeeOn(t.Quote(), t.sellerRate, sell.feeCarry), CarryOn(t.Quote(), t.sellerRate, sell.feeCarry)))
  }

  /** Everything the rules compute for such a fill, and that there is room for it. */
  lemma FillComputes(f: Flight, r: Request, config: Config, key: OrderKey, quantity: u64, t: Trade)
    requires Steady(f) && PlannedFill(f.book, r, config, key, quantity, t)
    ensures Settleable(f.book, t) && FillRoom(f, t) && Computed(f.book, r, config, key, quantity, t)
    ensures SettleNext(f, t) == Flight(OrdersWritten(f.book, t), SettleMints(f.book, f.minted, t))
  {
    hide Steady, Matches, Fill, BaseRaw, Fee, Floor, Ceil, OrderTerms.Collateral, OrderTerms.Asset, TradeOf, FillAgrees,
      Settleable, SettleNext, FillRoom, OrdersWritten, SettleMints, Core, FeeOn, CarryOn;
    SteadyParts(f);
    FillHasRoom(f, t);
    SettledInOrder(f, t);
    TradeSides(f.book, config, r, key, quantity, t);
    FillIs(f.book, t, r.terms.side == 1);
    FeesAre(f.book, t);
  }
}
