/** The indexer's ledger proof: from one image of every account, each counter is recomputed from
    the records it summarizes. In every reachable state it accepts. */
module Reconciliation {
  import opened Sums
  import opened Rules
  import opened State
  import opened Settlement
  import opened InFlight
  import opened Matching
  import opened Chain
  import opened Exchange
  import opened Placing
  import opened Protocol

  // --------------------------------------------------------------- the snapshot

  datatype WalletKey = WalletKey(market: Pubkey, owner: Pubkey)
  datatype Placed = Placed(market: Pubkey, key: OrderKey)
  datatype MarketRecord = MarketRecord(ledgers: Ledgers, mints: Mints, bases: nat, initialized: set<nat>)

  /** Accounts as they are fetched: flat, whatever they claim to belong to. */
  datatype Snapshot = Snapshot(pools: map<Pubkey, int>, credits: map<CreditKey, int>,
                               markets: map<Pubkey, MarketRecord>,
                               wallets: map<WalletKey, Amounts>, orders: map<Placed, Order>)

  function Record(b: Book): MarketRecord {
    MarketRecord(b.ledgers, b.market.mints, b.market.bases, b.market.initialized)
  }

  ghost function Fetched(s: Chain): Snapshot {
    Snapshot(
      map p | p in s.pools :: s.pools[p].liability,
      s.credits,
      map id | id in s.books :: Record(s.books[id]),
      map id, o | id in s.books && o in s.books[id].wallets :: WalletKey(id, o) := s.books[id].wallets[o].balances,
      map id, k | id in s.books && k in s.books[id].orders :: Placed(id, k) := s.books[id].orders[k])
  }

  // ---------------------------------------------------------- what is recomputed

  ghost function HeldIn(id: Pubkey, a: nat): (WalletKey, Amounts) -> int {
    (k: WalletKey, balances: Amounts) => if k.market == id && a < ASSETS && IsClaim(a) then balances[a] else 0
  }

  ghost function EscrowedIn(id: Pubkey, a: nat): (Placed, Order) -> int {
    (k: Placed, o: Order) => if k.market == id && o.status == LIVE && o.terms.Asset() == a then o.reserved else 0
  }

  /** What a market owes the pool of a mint in one collateral it has initialized. */
  function OwedFor(m: MarketRecord, mint: Pubkey, c: nat): int
    requires c < COLLATERALS
  {
    if Underlying(c) in m.initialized && m.mints[c] == mint then m.ledgers.backing[c] + m.ledgers.escrow[Underlying(c)]
       else 0
  }

  ghost function OwedBefore(m: MarketRecord, mint: Pubkey, n: nat): int
    requires n <= COLLATERALS
  {
    if n == 0 then 0 else OwedBefore(m, mint, n - 1) + OwedFor(m, mint, n - 1)
  }

  ghost function OwedIn(mint: Pubkey): (Pubkey, MarketRecord) -> int {
    (id, m) => OwedBefore(m, mint, COLLATERALS)
  }

  predicate WalletOk(s: Snapshot, k: WalletKey, balances: Amounts) {
    k.market in s.markets && forall c | 0 <= c < COLLATERALS :: balances[Underlying(c)] == 0
  }

  predicate ReservationOk(s: Snapshot, k: Placed, o: Order) {
    if o.status != LIVE then o.reserved == 0
    else k.market in s.markets && WalletKey(k.market, k.key.owner) in s.wallets && o.terms.Asset() < ASSETS
  }

  predicate CollateralOk(s: Snapshot, m: MarketRecord, c: nat)
    requires c < COLLATERALS
  {
    if Underlying(c) in m.initialized then c <= m.bases && m.mints[c] in s.pools
    else m.ledgers.backing[c] + m.ledgers.escrow[Underlying(c)] == 0
  }

  ghost predicate MarketOk(s: Snapshot, id: Pubkey, m: MarketRecord) {
    && (forall a | 0 <= a < ASSETS ::
          && (!IsClaim(a) ==> m.ledgers.credits[a] == 0)
          && m.ledgers.credits[a] == SumBy(s.wallets, HeldIn(id, a))
          && m.ledgers.escrow[a] == SumBy(s.orders, EscrowedIn(id, a)))
    && (forall c | 0 <= c < COLLATERALS :: CollateralOk(s, m, c))
  }

  /** The ledger adds up: every credit, wallet and reservation belongs somewhere, every market
      counter is the sum of its records, and every pool owes its owners and markets together. */
  ghost predicate Reconciles(s: Snapshot) {
    && (forall k | k in s.credits :: k.mint in s.pools)
    && (forall k | k in s.wallets :: WalletOk(s, k, s.wallets[k]))
    && (forall k | k in s.orders :: ReservationOk(s, k, s.orders[k]))
    && (forall id | id in s.markets :: MarketOk(s, id, s.markets[id]))
    && (forall p | p in s.pools :: s.pools[p] == SumBy(s.credits, CreditIn(p)) + SumBy(s.markets, OwedIn(p)))
  }

  // ------------------------------------------------------------------ the checks

  /** Adds every owner's available credit to its pool. */
  method AddCredits(s: Snapshot) returns (ok: bool, owed: map<Pubkey, int>)
    ensures ok <==> forall k | k in s.credits :: k.mint in s.pools
    ensures ok ==> owed.Keys == s.pools.Keys && forall p | p in s.pools :: owed[p] == SumBy(s.credits, CreditIn(p))
  {
    hide SumBy;
    owed := map p | p in s.pools :: 0;
    var rest := s.credits;
    while rest != map[]
      invariant owed.Keys == s.pools.Keys
      invariant forall k | k in rest :: k in s.credits && rest[k] == s.credits[k]
      invariant forall k | k in s.credits :: k in rest || k.mint in s.pools
      invariant forall p | p in s.pools :: owed[p] + SumBy(rest, CreditIn(p)) == SumBy(s.credits, CreditIn(p))
      decreases |rest|
    {
      var k :| k in rest;
      if k.mint !in owed { return false, owed; }
      forall p | p in s.pools
        ensures SumBy(rest, CreditIn(p)) == CreditIn(p)(k, rest[k]) + SumBy(rest - {k}, CreditIn(p))
      {
        SumRemove(rest, k, CreditIn(p));
      }
      owed := owed[k.mint := owed[k.mint] + rest[k]];
      rest := rest - {k};
    }
    forall p | p in s.pools
      ensures SumBy(map[], CreditIn(p)) == 0
    {
      SumNone(CreditIn(p));
    }
    ok := true;
  }

  type Totals = map<Pubkey, Amounts>

  /** Totals so far and the records still to be read make up the sums. */
  ghost predicate Tallied<K(!new), V(!new)>(markets: set<Pubkey>, totals: Totals, rest: map<K, V>, all: map<K, V>,
                                            f: (Pubkey, nat) -> (K, V) -> int) {
    && totals.Keys == markets
    && forall id, a | id in markets && 0 <= a < ASSETS :: totals[id][a] + SumBy(rest, f(id, a)) == SumBy(all, f(id, a))
  }

  lemma TallyStarts<K(!new), V(!new)>(markets: set<Pubkey>, all: map<K, V>, f: (Pubkey, nat) -> (K, V) -> int)
    ensures Tallied(markets, map id | id in markets :: NO_AMOUNTS, all, all, f)
  {
    hide SumBy;
  }

  /** Reading one record: the totals change by what it contributes. */
  lemma TallyNext<K(!new), V(!new)>(markets: set<Pubkey>, totals: Totals, after: Totals, rest: map<K, V>,
                                    all: map<K, V>,
                                    f: (Pubkey, nat) -> (K, V) -> int, k: K)
    requires Tallied(markets, totals, rest, all, f) && k in rest && after.Keys == markets
    requires forall id, a | id in markets && 0 <= a < ASSETS :: after[id][a] == totals[id][a] + f(id, a)(k, rest[k])
    ensures Tallied(markets, after, rest - {k}, all, f)
  {
    hide SumBy;
    forall id, a | id in markets && 0 <= a < ASSETS
      ensures after[id][a] + SumBy(rest - {k}, f(id, a)) == SumBy(all, f(id, a))
    {
      SumRemove(rest, k, f(id, a));
    }
  }

  lemma TallyEnds<K(!new), V(!new)>(markets: set<Pubkey>, totals: Totals, all: map<K, V>,
                                    f: (Pubkey, nat) -> (K, V) -> int)
    requires Tallied(markets, totals, map[], all, f)
    ensures totals.Keys == markets
    ensures forall id, a | id in markets && 0 <= a < ASSETS :: totals[id][a] == SumBy(all, f(id, a))
  {
    hide SumBy;
    forall id, a | id in markets && 0 <= a < ASSETS
      ensures totals[id][a] == SumBy(all, f(id, a))
    {
      SumNone(f(id, a));
    }
  }

  /** Adds the claims of one wallet to its market's totals; it may hold nothing else. */
  method AddWallet(totals: Amounts, held: Amounts) returns (ok: bool, added: Amounts)
    ensures ok <==> forall c | 0 <= c < COLLATERALS :: held[Underlying(c)] == 0
    ensures ok ==> forall a | 0 <= a < ASSETS :: added[a] == totals[a] + (if IsClaim(a) then held[a] else 0)
  {
    added := totals;
    for a := 0 to ASSETS
      invariant forall b | 0 <= b < ASSETS :: added[b] == totals[b] + (if b < a && IsClaim(b) then held[b] else 0)
      invariant forall b | 0 <= b < a && !IsClaim(b) :: held[b] == 0
    {
      if IsClaim(a) {
        added := added[a := added[a] + held[a]];
      } else if held[a] != 0 {
        assert a == Underlying(CollateralOf(a));
        return false, added;
      }
    }
    ok := true;
  }

  /** Adds up the claims every market's wallets hold. */
  method AddWallets(s: Snapshot) returns (ok: bool, totals: Totals)
    ensures ok <==> forall k | k in s.wallets :: WalletOk(s, k, s.wallets[k])
    ensures ok ==> totals.Keys == s.markets.Keys
                   && forall id, a | id in s.markets && 0 <= a < ASSETS ::
                      totals[id][a] == SumBy(s.wallets, HeldIn(id, a))
  {
    hide SumBy, Tallied;
    totals := map id | id in s.markets.Keys :: NO_AMOUNTS;
    var rest := s.wallets;
    TallyStarts(s.markets.Keys, rest, HeldIn);
    while rest != map[]
      invariant totals.Keys == s.markets.Keys && Tallied(s.markets.Keys, totals, rest, s.wallets, HeldIn)
      invariant forall k | k in rest :: k in s.wallets && rest[k] == s.wallets[k]
      invariant forall k | k in s.wallets :: k in rest || WalletOk(s, k, s.wallets[k])
      decreases |rest|
    {
      var k :| k in rest;
      if k.market !in totals { return false, totals; }
      var added;
      ok, added := AddWallet(totals[k.market], rest[k]);
      if !ok { return; }
      TallyNext(s.markets.Keys, totals, totals[k.market := added], rest, s.wallets, HeldIn, k);
      totals := totals[k.market := added];
      rest := rest - {k};
    }
    TallyEnds(s.markets.Keys, totals, s.wallets, HeldIn);
    ok := true;
  }

  /** Adds up the open reservations of every market by the asset they reserve. */
  method AddReservations(s: Snapshot) returns (ok: bool, totals: Totals)
    ensures ok <==> forall k | k in s.orders :: ReservationOk(s, k, s.orders[k])
    ensures ok ==> totals.Keys == s.markets.Keys
                   && forall id, a | id in s.markets && 0 <= a < ASSETS ::
                      totals[id][a] == SumBy(s.orders, EscrowedIn(id, a))
  {
    hide OrderTerms.Asset, SumBy, Tallied;
    totals := map id | id in s.markets.Keys :: NO_AMOUNTS;
    var rest := s.orders;
    TallyStarts(s.markets.Keys, rest, EscrowedIn);
    while rest != map[]
      invariant totals.Keys == s.markets.Keys && Tallied(s.markets.Keys, totals, rest, s.orders, EscrowedIn)
      invariant forall k | k in rest :: k in s.orders && rest[k] == s.orders[k]
      invariant forall k | k in s.orders :: k in rest || ReservationOk(s, k, s.orders[k])
      decreases |rest|
    {
      var k :| k in rest;
      var o := rest[k];
      ghost var before := totals;
      if o.status != LIVE {
        if o.reserved != 0 { return false, totals; }
      } else {
        if WalletKey(k.market, k.key.owner) !in s.wallets || k.market !in totals { return false, totals; }
        var a := o.terms.Asset();
        if a >= ASSETS { return false, totals; }
        totals := totals[k.market := totals[k.market][a := totals[k.market][a] + o.reserved]];
      }
      TallyNext(s.markets.Keys, before, totals, rest, s.orders, EscrowedIn, k);
      rest := rest - {k};
    }
    TallyEnds(s.markets.Keys, totals, s.orders, EscrowedIn);
    ok := true;
  }

  /** One market's counters against the totals; what it owes is added to its pools. */
  method AddMarket(s: Snapshot, id: Pubkey, owed: map<Pubkey, int>, held: Amounts, escrowed: Amounts)
    returns (ok: bool, after: map<Pubkey, int>)
    requires id in s.markets && owed.Keys == s.pools.Keys
    requires forall a | 0 <= a < ASSETS :: held[a] == SumBy(s.wallets, HeldIn(id, a))
    requires forall a | 0 <= a < ASSETS :: escrowed[a] == SumBy(s.orders, EscrowedIn(id, a))
    ensures ok <==> MarketOk(s, id, s.markets[id])
    ensures ok ==> after.Keys == s.pools.Keys
                   && forall p | p in s.pools :: after[p] == owed[p] + OwedBefore(s.markets[id], p, COLLATERALS)
  {
    hide SumBy, HeldIn, EscrowedIn;
    after := owed;
    var m := s.markets[id];
    for a := 0 to ASSETS
      invariant forall b | 0 <= b < a ::
                  && (!IsClaim(b) ==> m.ledgers.credits[b] == 0)
                  && m.ledgers.credits[b] == held[b] && m.ledgers.escrow[b] == escrowed[b]
    {
      if !IsClaim(a) && m.ledgers.credits[a] != 0 { return false, after; }
      if held[a] != m.ledgers.credits[a] || escrowed[a] != m.ledgers.escrow[a] { return false, after; }
    }
    for c := 0 to COLLATERALS
      invariant after.Keys == s.pools.Keys
      invariant forall d | 0 <= d < c :: CollateralOk(s, m, d)
      invariant forall p | p in s.pools :: after[p] == owed[p] + OwedBefore(m, p, c)
    {
      var liability := m.ledgers.backing[c] + m.ledgers.escrow[Underlying(c)];
      if Underlying(c) in m.initialized {
        if c > m.bases || m.mints[c] !in after {
          assert !CollateralOk(s, m, c);
          return false, after;
        }
        after := after[m.mints[c] := after[m.mints[c]] + liability];
      } else if liability != 0 {
        assert !CollateralOk(s, m, c);
        return false, after;
      }
    }
    ok := true;
  }

  /** Pools so far and the markets still to be read make up what each pool owes. */
  ghost predicate Charged(s: Snapshot, owed: map<Pubkey, int>, rest: map<Pubkey, MarketRecord>) {
    && owed.Keys == s.pools.Keys
    && forall p | p in s.pools ::
       owed[p] + SumBy(rest, OwedIn(p)) == SumBy(s.credits, CreditIn(p)) + SumBy(s.markets, OwedIn(p))
  }

  lemma ChargeNext(s: Snapshot, owed: map<Pubkey, int>, after: map<Pubkey, int>, rest: map<Pubkey, MarketRecord>,
                   id: Pubkey)
    requires Charged(s, owed, rest) && id in rest && after.Keys == s.pools.Keys
    requires forall p | p in s.pools :: after[p] == owed[p] + OwedBefore(rest[id], p, COLLATERALS)
    ensures Charged(s, after, rest - {id})
  {
    hide SumBy, OwedBefore;
    forall p | p in s.pools
      ensures after[p] + SumBy(rest - {id}, OwedIn(p)) == SumBy(s.credits, CreditIn(p)) + SumBy(s.markets, OwedIn(p))
    {
      SumRemove(rest, id, OwedIn(p));
    }
  }

  lemma ChargeEnds(s: Snapshot, owed: map<Pubkey, int>)
    requires Charged(s, owed, map[])
    ensures owed.Keys == s.pools.Keys
    ensures forall p | p in s.pools :: owed[p] == SumBy(s.credits, CreditIn(p)) + SumBy(s.markets, OwedIn(p))
  {
    hide SumBy, OwedBefore;
    forall p | p in s.pools
      ensures owed[p] == SumBy(s.credits, CreditIn(p)) + SumBy(s.markets, OwedIn(p))
    {
      SumNone(OwedIn(p));
    }
  }

  lemma ChargeStarts(s: Snapshot, owed: map<Pubkey, int>)
    requires owed.Keys == s.pools.Keys && forall p | p in s.pools :: owed[p] == SumBy(s.credits, CreditIn(p))
    ensures Charged(s, owed, s.markets)
  {
    hide SumBy, OwedIn;
  }

  /** Checks every market and charges its pools. */
  method AddMarkets(s: Snapshot, credited: map<Pubkey, int>, held: Totals, escrowed: Totals)
      returns (ok: bool, owed: map<Pubkey, int>)
    requires credited.Keys == s.pools.Keys && held.Keys == escrowed.Keys == s.markets.Keys
    requires forall p | p in s.pools :: credited[p] == SumBy(s.credits, CreditIn(p))
    requires forall id, a | id in s.markets && 0 <= a < ASSETS :: held[id][a] == SumBy(s.wallets, HeldIn(id, a))
    requires forall id, a | id in s.markets && 0 <= a < ASSETS :: escrowed[id][a] == SumBy(s.orders, EscrowedIn(id, a))
    ensures ok <==> forall id | id in s.markets :: MarketOk(s, id, s.markets[id])
    ensures ok ==> owed.Keys == s.pools.Keys
                   && forall p | p in s.pools :: owed[p] == SumBy(s.credits, CreditIn(p)) + SumBy(s.markets, OwedIn(p))
  {
    hide SumBy, MarketOk, HeldIn, EscrowedIn, OwedIn, OwedBefore, Charged;
    owed := credited;
    ok := true;
    var rest := s.markets;
    ChargeStarts(s, owed);
    while rest != map[]
      invariant owed.Keys == s.pools.Keys && Charged(s, owed, rest)
      invariant forall id | id in rest :: id in s.markets && rest[id] == s.markets[id]
      invariant forall id | id in s.markets :: id in rest || MarketOk(s, id, s.markets[id])
      decreases |rest|
    {
      var id :| id in rest;
      ghost var before := owed;
      ok, owed := AddMarket(s, id, owed, held[id], escrowed[id]);
      if !ok { return; }
      ChargeNext(s, before, owed, rest, id);
      rest := rest - {id};
    }
    ok := true;
    ChargeEnds(s, owed);
  }

  /** Accepts exactly the snapshots whose ledgers add up. */
  method Reconcile(s: Snapshot) returns (ok: bool)
    ensures ok <==> Reconciles(s)
  {
    hide SumBy, WalletOk, ReservationOk, MarketOk, HeldIn, EscrowedIn, OwedIn, OwedBefore, CreditIn;
    var owed, held, escrowed;
    ok, owed := AddCredits(s);
    if !ok { return; }
    ok, held := AddWallets(s);
    if !ok { return; }
    ok, escrowed := AddReservations(s);
    if !ok { return; }
    ok, owed := AddMarkets(s, owed, held, escrowed);
    if !ok { return; }
    ok := forall p | p in s.pools :: owed[p] == s.pools[p];
  }

  // ----------------------------------------------------- reachable ledgers add up

  lemma {:induction false} FlatWallets(id: Pubkey, wallets: map<Pubkey, Wallet>, flat: map<WalletKey, Amounts>, a: nat)
    requires a < ASSETS && IsClaim(a)
    requires forall k | k in flat && k.market == id :: k.owner in wallets && flat[k] == wallets[k.owner].balances
    requires forall o | o in wallets :: WalletKey(id, o) in flat
    ensures SumBy(flat, HeldIn(id, a)) == SumBy(wallets, BalanceOf(a))
    decreases |wallets|
  {
    hide SumBy;
    if wallets == map[] {
      SumNone(BalanceOf(a));
      SumZero(flat, HeldIn(id, a));
    } else {
      var o :| o in wallets;
      FlatWallets(id, wallets - {o}, flat - {WalletKey(id, o)}, a);
      SumRemove(wallets, o, BalanceOf(a));
      SumRemove(flat, WalletKey(id, o), HeldIn(id, a));
    }
  }

  lemma {:induction false} FlatOrders(id: Pubkey, orders: map<OrderKey, Order>, flat: map<Placed, Order>, a: nat)
    requires forall k | k in flat && k.market == id :: k.key in orders && flat[k] == orders[k.key]
    requires forall k | k in orders :: Placed(id, k) in flat && (orders[k].status != LIVE ==> orders[k].reserved == 0)
    ensures SumBy(flat, EscrowedIn(id, a)) == SumBy(orders, ReservedIn(a))
    decreases |orders|
  {
    hide SumBy, OrderTerms.Asset;
    if orders == map[] {
      SumNone(ReservedIn(a));
      SumZero(flat, EscrowedIn(id, a));
    } else {
      var k :| k in orders;
      FlatOrders(id, orders - {k}, flat - {Placed(id, k)}, a);
      SumRemove(orders, k, ReservedIn(a));
      SumRemove(flat, Placed(id, k), EscrowedIn(id, a));
    }
  }

  lemma {:induction false} FlatMarkets(books: map<Pubkey, Book>, flat: map<Pubkey, MarketRecord>, p: Pubkey)
    requires flat.Keys == books.Keys
    requires forall id | id in books :: OwedBefore(flat[id], p, COLLATERALS) == Demand(books[id], p)
    ensures SumBy(flat, OwedIn(p)) == SumBy(books, DemandOf(p))
    decreases |books|
  {
    hide SumBy, OwedBefore, Demand;
    if books == map[] {
      SumNone(DemandOf(p));
      SumNone(OwedIn(p));
      assert flat == map[];
    } else {
      var id :| id in books;
      FlatMarkets(books - {id}, flat - {id}, p);
      SumRemove(books, id, DemandOf(p));
      SumRemove(flat, id, OwedIn(p));
    }
  }

  lemma BookCredits(s: Chain, id: Pubkey, a: nat)
    requires Inv(s) && id in s.books && a < ASSETS
    ensures !IsClaim(a) ==> s.books[id].ledgers.credits[a] == 0
    ensures s.books[id].ledgers.credits[a] == SumBy(Fetched(s).wallets, HeldIn(id, a))
    ensures s.books[id].ledgers.escrow[a] == SumBy(Fetched(s).orders, EscrowedIn(id, a))
  {
    hide Inv, SumBy, OrdersOk, NonNegative, TermsOk, Backed, LegsOk, LifecycleOk, ExposureCapped, UnlistedEmpty,
      OnlyResting, Drained, OrderTerms.Asset;
    InvBook(s, id);
    var b, f := s.books[id], Fetched(s);
    if IsClaim(a) {
      FlatWallets(id, b.wallets, f.wallets, a);
    } else {
      SumZero(f.wallets, HeldIn(id, a));
      assert a == Underlying(CollateralOf(a));
      DrainedMarket(b, CollateralOf(a));
    }
    forall k | k in b.orders && b.orders[k].status != LIVE
      ensures b.orders[k].reserved == 0
    {
      ClosedReservesNothing(b, k);
    }
    FlatOrders(id, b.orders, f.orders, a);
  }

  lemma ClosedReservesNothing(b: Book, k: OrderKey)
    requires Core(b) && k in b.orders
    ensures b.orders[k].status != LIVE ==> b.orders[k].reserved == 0
    ensures k.owner in b.wallets && b.orders[k].terms.Asset() < ASSETS
  {
    hide NonNegative, OrderTerms.Asset;
    assert OrderOk(b.market, k, b.orders[k]);
  }

  lemma BookOwes(s: Chain, id: Pubkey, c: nat)
    requires Inv(s) && id in s.books && c < COLLATERALS
    ensures CollateralOk(Fetched(s), Record(s.books[id]), c)
    ensures forall p :: OwedFor(Record(s.books[id]), p, c) == Share(s.books[id], p, c)
  {
    hide Inv, SumBy, Balanced, OrdersOk, NonNegative, TermsOk, Backed, LifecycleOk, ExposureCapped, OnlyResting,
      Drained;
    InvBook(s, id);
    var b := s.books[id];
    DrainedMarket(b, c);
    if c > b.market.bases {
      UnlistedOwesNothing(b, c);
    }
  }

  lemma OwedIsDemand(m: MarketRecord, b: Book, p: Pubkey)
    requires forall c | 0 <= c < COLLATERALS :: OwedFor(m, p, c) == Share(b, p, c)
    ensures OwedBefore(m, p, COLLATERALS) == Demand(b, p)
  {
    hide OwedFor, Share;
    assert OwedBefore(m, p, 1) == Share(b, p, 0) && OwedBefore(m, p, 2) == OwedBefore(m, p, 1) + Share(b, p, 1);
    assert OwedBefore(m, p, 3) == OwedBefore(m, p, 2) + Share(b, p, 2);
  }

  lemma MarketReconciles(s: Chain, id: Pubkey)
    requires Inv(s) && id in s.books
    ensures MarketOk(Fetched(s), id, Record(s.books[id]))
    ensures forall p :: OwedBefore(Record(s.books[id]), p, COLLATERALS) == Demand(s.books[id], p)
  {
    hide Inv, SumBy, Share, OwedFor, OwedBefore, Demand, CollateralOk, HeldIn, EscrowedIn, Fetched;
    var f, m := Fetched(s), Record(s.books[id]);
    forall a | 0 <= a < ASSETS
      ensures (!IsClaim(a) ==> m.ledgers.credits[a] == 0)
              && m.ledgers.credits[a] == SumBy(f.wallets, HeldIn(id, a))
              && m.ledgers.escrow[a] == SumBy(f.orders, EscrowedIn(id, a))
    {
      BookCredits(s, id, a);
    }
    forall c | 0 <= c < COLLATERALS
      ensures CollateralOk(f, m, c)
    {
      BookOwes(s, id, c);
    }
    forall p
      ensures OwedBefore(m, p, COLLATERALS) == Demand(s.books[id], p)
    {
      forall c | 0 <= c < COLLATERALS
        ensures OwedFor(m, p, c) == Share(s.books[id], p, c)
      {
        BookOwes(s, id, c);
      }
      OwedIsDemand(m, s.books[id], p);
    }
  }

  lemma PoolReconciles(s: Chain, p: Pubkey)
    requires Inv(s) && p in s.pools
    ensures s.pools[p].liability == SumBy(s.credits, CreditIn(p)) + SumBy(Fetched(s).markets, OwedIn(p))
  {
    hide BooksOk, AccountsOk, SumBy, OwedBefore, Demand, MarketOk;
    forall id | id in s.books
      ensures OwedBefore(Fetched(s).markets[id], p, COLLATERALS) == Demand(s.books[id], p)
    {
      MarketReconciles(s, id);
    }
    FlatMarkets(s.books, Fetched(s).markets, p);
  }

  /** The invariant of all runs is what the ledger proof recomputes. */
  lemma InvReconciles(s: Chain)
    requires Inv(s)
    ensures Reconciles(Fetched(s))
  {
    hide Inv, Fetched, SumBy, OwedBefore, Demand, MarketOk, WalletOk, ReservationOk, CreditIn, OwedIn;
    MarketsReconcile(s);
    PoolsReconcile(s);
    RecordsBelong(s);
  }

  lemma MarketsReconcile(s: Chain)
    requires Inv(s)
    ensures forall id | id in Fetched(s).markets :: MarketOk(Fetched(s), id, Fetched(s).markets[id])
  {
    hide Inv, SumBy, MarketOk;
    forall id | id in Fetched(s).markets
      ensures MarketOk(Fetched(s), id, Fetched(s).markets[id])
    {
      MarketReconciles(s, id);
    }
  }

  lemma PoolsReconcile(s: Chain)
    requires Inv(s)
    ensures forall k | k in Fetched(s).credits :: k.mint in Fetched(s).pools
    ensures forall p | p in Fetched(s).pools ::
              Fetched(s).pools[p] == SumBy(Fetched(s).credits, CreditIn(p)) + SumBy(Fetched(s).markets, OwedIn(p))
  {
    hide BooksOk, PoolsBalanced, SumBy, OwedBefore, Demand, CreditIn, OwedIn;
    forall p | p in Fetched(s).pools
      ensures Fetched(s).pools[p] == SumBy(Fetched(s).credits, CreditIn(p)) + SumBy(Fetched(s).markets, OwedIn(p))
    {
      PoolReconciles(s, p);
    }
  }

  lemma RecordsBelong(s: Chain)
    requires Inv(s)
    ensures var f := Fetched(s);
            && (forall k | k in f.wallets :: WalletOk(f, k, f.wallets[k]))
            && (forall k | k in f.orders :: ReservationOk(f, k, f.orders[k]))
  {
    hide SumBy, PoolsBalanced, AccountsOk, Balanced, OrdersOk, NonNegative, TermsOk, Backed, LegsOk, LifecycleOk,
      ExposureCapped, UnlistedEmpty, OnlyResting, OrderTerms.Asset;
    var f := Fetched(s);
    forall k | k in f.wallets
      ensures WalletOk(f, k, f.wallets[k])
    {
      assert BookOk(s.books[k.market]);
    }
    forall k | k in f.orders
      ensures ReservationOk(f, k, f.orders[k])
    {
      assert BookOk(s.books[k.market]);
      ClosedReservesNothing(s.books[k.market], k.key);
    }
  }

  /** Whatever has happened to a deployment, its ledger adds up. */
  lemma EveryRunReconciles(states: seq<Chain>, actions: seq<Action>, i: nat)
    requires Run(states, actions) && Initial(states[0]) && i < |states|
    ensures Reconciles(Fetched(states[i]))
  {
    hide Step, Initial, Inv, Reconciles;
    RunKeepsInv(states, actions, i);
    InvReconciles(states[i]);
  }
}
