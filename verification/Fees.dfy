/** Fees against fills: what a placement charges, and what its orders carry over to their next fill,
    account for every filled unit at its rate, exactly. */
module Fees {
  import opened Exact
  import opened Rules
  import opened Sums
  import opened Conversion
  import opened State
  import opened Settlement
  import opened InFlight
  import opened Matching
  import opened Chain
  import opened Exchange
  import opened Placing
  import opened Completion

  ghost function Carried(): (OrderKey, Order) -> int {
    (key, o: Order) => o.feeCarry
  }

  /** The fees of the first n assets. */
  function FeesTo(fees: Amounts, n: nat): int
    requires n <= ASSETS
  {
    if n == 0 then 0 else FeesTo(fees, n - 1) + fees[n - 1]
  }

  /** What a book has charged, in ten-thousandths, and what its orders carry. */
  ghost function Accounted(b: Book): int {
    BPS * FeesTo(b.ledgers.fees, ASSETS) + SumBy(b.orders, Carried())
  }

  /** What a fill is charged on, each side at its rate, in ten-thousandths. */
  function Chargeable(t: Trade): int {
    t.raw * t.buyerRate + t.Quote() * t.sellerRate
  }

  function ChargeableOf(trades: seq<Trade>): int {
    if trades == [] then 0 else Chargeable(trades[0]) + ChargeableOf(trades[1..])
  }

  lemma {:induction false} FeesAt(fees: Amounts, a: nat, amount: int, n: nat)
    requires a < ASSETS && n <= ASSETS
    ensures FeesTo(fees[a := fees[a] + amount], n) == FeesTo(fees, n) + (if a < n then amount else 0)
  {
    if n > 0 {
      FeesAt(fees, a, amount, n - 1);
    }
  }

  lemma DeliverCharges(b: Book, c: nat, funding: nat, funder: Pubkey, recipient: Pubkey, branch: nat, amount: int,
                       fee: int)
    requires c < COLLATERALS && branch < 2 && funder in b.wallets && recipient in b.wallets
    ensures Deliver(b, c, funding, funder, recipient, branch, amount, fee).ledgers.fees
         == b.ledgers.fees[Claim(c, branch) := b.ledgers.fees[Claim(c, branch)] + fee]
  {
    hide Post;
  }

  lemma ChargeIsExact(gross: nat, rate: u16, carry: int)
    ensures BPS * FeeOn(gross, rate, carry) + CarryOn(gross, rate, carry) == gross * rate + carry
  {
  }

  /** One fill charges its buyer on the delivery and its seller on the quote: fees and carries together
      grow by exactly that. */
  lemma TradeCharges(b: Book, t: Trade)
    requires Settleable(b, t)
    ensures Accounted(Settle(b, t)) == Accounted(b) + Chargeable(t)
  {
    hide Post, SetOrder, Deliver, FeeOn, CarryOn, Improvement, Surplus, Ceil, Floor, SumBy, OrderTerms.Asset, FeesTo;
    var buy, sell := b.orders[t.buy], b.orders[t.sell];
    var base, quote := FeeOn(t.raw, t.buyerRate, buy.feeCarry), FeeOn(t.Quote(), t.sellerRate, sell.feeCarry);
    DeliverCharges(SettleOrders(b, t), t.base, sell.terms.funding, t.sell.owner, buy.terms.recipient, buy.terms.branch,
                   t.raw, base);
    DeliverCharges(DeliverBase(b, t), QUOTE, buy.terms.funding, t.buy.owner, sell.terms.recipient, buy.terms.branch,
                   t.Quote(), quote);
    FeesAt(b.ledgers.fees, Claim(t.base, buy.terms.branch), base, ASSETS);
    FeesAt(DeliverBase(b, t).ledgers.fees, Claim(QUOTE, buy.terms.branch), quote, ASSETS);
    SumUpdate(b.orders, t.buy, Bought(buy, t), Carried());
    SumUpdate(b.orders[t.buy := Bought(buy, t)], t.sell, Sold(sell, t), Carried());
    ChargeIsExact(t.raw, t.buyerRate, buy.feeCarry);
    ChargeIsExact(t.Quote(), t.sellerRate, sell.feeCarry);
  }

  /** So do those of the whole queue. */
  lemma {:induction false} FillsCharge(f: Flight, r: Request, trades: seq<Trade>, scale: nat, parts: Parts)
    requires Steady(f) && Queued(f.book, r, trades, scale, parts)
    ensures Accounted(SettleAll(f, trades).book) == Accounted(f.book) + ChargeableOf(trades)
    decreases |trades|
  {
    hide Core, Backed, Bounded, Market.Payouts, Settle, SettleMints, Settleable, Matches, Accounted, Chargeable,
      MakerReady, TakerReady;
    if trades != [] {
      NextMatches(f.book, r, trades, scale, parts);
      SettleKeepsBooks(f.book, f.minted, trades[0]);
      SettleKeepsQueue(f.book, r, trades, scale, parts);
      TradeCharges(f.book, trades[0]);
      FillsCharge(SettleNext(f, trades[0]), r, trades[1..], scale, parts);
    }
  }

  lemma ReservingChargesNothing(b: Book, owner: Pubkey, t: OrderTerms, reserved: nat, notional: nat)
    requires owner in b.wallets && OrderKey(owner, t.salt) !in b.orders && t.Asset() < ASSETS
    requires t.branch < 2 && b.market.sequence[t.branch] < U64_MAX
    ensures Accounted(Reserve(b, owner, t, reserved, notional)) == Accounted(b)
  {
    hide OrderTerms.Asset, FeesTo, SumBy, Post;
    SumUpdate(b.orders, OrderKey(owner, t.salt), OpenedOrder(t, b.market.sequence[t.branch], reserved, notional),
              Carried());
  }

  lemma OpeningChargesNothing(s: Chain, id: Pubkey, r: Request)
    requires Fillable(s, id, r)
    ensures Accounted(Opened(s, id, r)) == Accounted(s.books[id])
  {
    hide Fillable, Reserve, FeesTo, SumBy, OrderTerms.Asset, HydrateAll, ReservedFor, Ceil;
    FillableFacts(s, id, r);
    FreshKey(s, id, r);
    var o := Opened(s, id, r);
    ReservingChargesNothing(Hydrated(s, id, r), r.owner, r.terms, ReservedFor(s.books[id].market, r).value,
                            Ceil(r.terms.quantity, r.terms.price));
  }

  lemma FinishingChargesNothing(b: Book, r: Request)
    requires Entered(b, r)
    ensures Accounted(Finished(b, r)) == Accounted(b)
  {
    hide OrderTerms.Asset, FeesTo, SumBy, Post;
    if r.Key() in b.orders { SumUpdate(b.orders, r.Key(), ClosedOrder(b.orders[r.Key()]), Carried()); }
  }

  lemma ClosingChargesNothing(o: Flight, r: Request, trades: seq<Trade>, sequence: nat)
    requires Entered(o.book, r) && Ticks(o.book.market, r.terms.price) <= U64_MAX
    ensures Entered(SettleAll(o, trades).book, r)
    ensures Accounted(Closed(o, r, trades, sequence)) == Accounted(Finished(SettleAll(o, trades).book, r))
  {
    hide OrderTerms.Asset, FeesTo, SumBy, SettleAll, Finished, Ticks;
  }

  lemma FlushingChargesNothing(s: Chain, id: Pubkey, r: Request)
    requires Fillable(s, id, r) && Ticks(s.books[id].market, r.terms.price) <= U64_MAX
    ensures Accounted(Placed(s, id, r).books[id]) == Accounted(Closing(s, id, r))
  {
    hide Fillable, FeesTo, SumBy, Closing, Ticks, FlushAll;
  }

  /** A placement charges, on both sides of all its fills, exactly their rates: what is not yet a whole
      unit is carried by the orders that owe it. */
  lemma PlacementCharges(s: Chain, id: Pubkey, r: Request)
    requires Inv(s) && Fillable(s, id, r) && Ticks(s.books[id].market, r.terms.price) <= U64_MAX
    ensures Accounted(Placed(s, id, r).books[id]) == Accounted(s.books[id]) + ChargeableOf(Trades(s, id, r))
  {
    hide Inv, Fillable, Opened, SettleAll, Queued, Steady, Trades, Ticks, Accounted, Finished, Framed, Entered, Closed,
      Placed, OnlyRestingBut, ChargeableOf;
    FillableFacts(s, id, r);
    StartReady(s, id, r);
    var o, trades := Start(s, id, r), Trades(s, id, r);
    OpeningChargesNothing(s, id, r);
    FillsCharge(o, r, trades, ScaleOf(s.books[id].market, r), PartsOf(r));
    ClosingChargesNothing(o, r, trades, s.books[id].market.sequence[r.terms.branch]);
    FinishingChargesNothing(SettleAll(o, trades).book, r);
    FlushingChargesNothing(s, id, r);
  }
}
