/** What the open orders of a book are worth together: the exposure its counters keep, and so a bound
    on what any part of them can cost. */
module Exposure {
  import opened Rules
  import opened Sums
  import opened State
  import opened Settlement
  import opened InFlight
  import opened Matching
  import opened Chain

  ghost function OpenNotional(): (OrderKey, Order) -> int {
    (key, o: Order) => o.openNotional
  }

  /** The exposure of an owner, whatever its wallet says. */
  ghost function OwnedBy(orders: map<OrderKey, Order>): (Pubkey, Wallet) -> int {
    (owner, w) => SumBy(orders, ExposureOf(owner))
  }

  /** Two sums that differ at one key differ by what they do there. */
  lemma SumShift<K, V>(m: map<K, V>, key: K, f: (K, V) -> int, g: (K, V) -> int, extra: int)
    requires key in m && forall k | k in m :: f(k, m[k]) == g(k, m[k]) + (if k == key then extra else 0)
    ensures SumBy(m, f) == SumBy(m, g) + extra
  {
    SumRemove(m, key, f);
    SumRemove(m, key, g);
    SumSame(m - {key}, f, g);
  }

  lemma NothingOwned(wallets: map<Pubkey, Wallet>)
    ensures SumBy(wallets, OwnedBy(map[])) == 0
  {
    forall o | o in wallets
      ensures OwnedBy(map[])(o, wallets[o]) == 0
    {
      SumNone(ExposureOf(o));
    }
    SumZero(wallets, OwnedBy(map[]));
  }

  /** An order counts for its owner alone. */
  lemma OwnedWithout(wallets: map<Pubkey, Wallet>, orders: map<OrderKey, Order>, k: OrderKey)
    requires k in orders && k.owner in wallets
    ensures SumBy(wallets, OwnedBy(orders)) == SumBy(wallets, OwnedBy(orders - {k})) + orders[k].openNotional
  {
    hide SumBy;
    var rest := orders - {k};
    forall o | o in wallets
      ensures OwnedBy(orders)(o, wallets[o])
           == OwnedBy(rest)(o, wallets[o]) + (if o == k.owner then orders[k].openNotional else 0)
    {
      SumRemove(orders, k, ExposureOf(o));
    }
    SumShift(wallets, k.owner, OwnedBy(orders), OwnedBy(rest), orders[k].openNotional);
  }

  /** Summed by owner, the orders' notional is what it is summed by order. */
  lemma {:induction false} SummedByOwner(wallets: map<Pubkey, Wallet>, orders: map<OrderKey, Order>)
    requires forall k | k in orders :: k.owner in wallets
    ensures SumBy(wallets, OwnedBy(orders)) == SumBy(orders, OpenNotional())
    decreases |orders|
  {
    hide SumBy;
    if orders == map[] {
      NothingOwned(wallets);
      SumNone(OpenNotional());
    } else {
      var k :| k in orders;
      SummedByOwner(wallets, orders - {k});
      OwnedWithout(wallets, orders, k);
      SumRemove(orders, k, OpenNotional());
    }
  }

  /** A market's open notional is that of its orders, and 64 bits hold it. */
  lemma ExposureIsOrders(b: Book)
    requires BookOk(b)
    ensures b.ledgers.openNotional == SumBy(b.orders, OpenNotional()) <= U64_MAX
    ensures forall k | k in b.orders :: b.orders[k].openNotional >= 0
  {
    hide Backed, Drained, LegsOk, LifecycleOk, UnlistedEmpty, OnlyResting, NonNegative, OrderTermsOk, Ceil,
      OrderTerms.Asset;
    SumSame(b.wallets, WalletExposure(), OwnedBy(b.orders));
    SummedByOwner(b.wallets, b.orders);
    forall k | k in b.orders
      ensures b.orders[k].openNotional >= 0
    {
      assert OrderOk(b.market, k, b.orders[k]);
    }
  }
}
