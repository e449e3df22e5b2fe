/** Listing, lifecycle and resolution: what administrators may change, and why no change of
    theirs can leave claims unbacked or an order unconvertible. */
module Governance {
  import opened Exact
  import opened Rules
  import opened Sums
  import opened Conversion
  import opened State
  import opened Settlement
  import opened InFlight
  import opened Matching
  import opened Chain
  import opened Exchange
  import opened Placing
  import opened Completion
  import opened Pools

  const MAX_SHARE_DECIMALS := 18
  const MAX_SCALE_EXPONENT := 19

  function Pow10(n: nat): (p: nat)
    ensures p > 0
  {
    if n == 0 then 1 else 10 * Pow10(n - 1)
  }

  lemma {:induction false} Pow10Fits(n: nat)
    requires n <= MAX_SCALE_EXPONENT
    ensures 0 < Pow10(n) <= U64_MAX
    ensures n > 0 ==> Pow10(n) >= 10
  {
    Pow10Steps(n, MAX_SCALE_EXPONENT);
    var a, b, c, d, e := Pow10(19), Pow10(15), Pow10(11), Pow10(7), Pow10(3);
    assert a == 10 * Pow10(18) && Pow10(18) == 10 * Pow10(17) && Pow10(17) == 10 * Pow10(16) && Pow10(16) == 10 * b;
    assert b == 10 * Pow10(14) && Pow10(14) == 10 * Pow10(13) && Pow10(13) == 10 * Pow10(12) && Pow10(12) == 10 * c;
    assert c == 10 * Pow10(10) && Pow10(10) == 10 * Pow10(9) && Pow10(9) == 10 * Pow10(8) && Pow10(8) == 10 * d;
    assert d == 10 * Pow10(6) && Pow10(6) == 10 * Pow10(5) && Pow10(5) == 10 * Pow10(4) && Pow10(4) == 10 * e;
    assert e == 1000;
  }

  lemma {:induction false} Pow10Steps(n: nat, m: nat)
    requires n <= m
    ensures 0 < Pow10(n) <= Pow10(m)
    ensures n > 0 ==> Pow10(n) >= 10
  {
    if m > 0 {
      Pow10Steps(if n < m then n else m - 1, m - 1);
      if n == m {
        Pow10Steps(0, m - 1);
      }
    }
  }

  // ---------------------------------------------------------------- markets

  const NO_LEG := BaseLeg(0, 0, false)

  /** A market starts with the deployment quote alone. */
  function NewBook(terms: Terms, quoteMint: Pubkey): Book {
    Book(Market(terms, 0, [NO_LEG, NO_LEG, NO_LEG], [quoteMint, NOBODY, NOBODY, NOBODY], {Underlying(QUOTE)}, SCHEDULED,
                [0, 0], EMPTY_RING, (0, 0)),
         EMPTY_LEDGERS, seq(ASSETS, _ => ClaimTokens(0, 0)), map[], map[])
  }

  predicate CanCreate(s: Chain, id: Pubkey, terms: Terms) {
    && id !in s.books && s.quoteMint in s.pools
    && 0 <= terms.tradingOpen < terms.tradingCutoff && s.now < terms.tradingCutoff
    && terms.shareDecimals <= MAX_SHARE_DECIMALS && terms.caps.Validate().Ok?
  }

  function Created(s: Chain, id: Pubkey, terms: Terms): Chain {
    s.(books := s.books[id := NewBook(terms, s.quoteMint)])
  }

  lemma CreateKeepsInv(s: Chain, id: Pubkey, terms: Terms)
    requires Inv(s) && CanCreate(s, id, terms)
    ensures Inv(Created(s, id, terms))
  {
    hide BookOk, Demand, Caps.Validate, ListingChecks;
    var after := Created(s, id, terms);
    NewBookOk(terms, s.quoteMint);
    forall p | p in after.pools
      ensures after.pools[p].liability == SumBy(after.credits, CreditIn(p)) + SumBy(after.books, DemandOf(p))
    {
      SumUpdate(s.books, id, NewBook(terms, s.quoteMint), DemandOf(p));
      NewBookOwesNothing(terms, s.quoteMint, p);
    }
    forall k | k in after.books
      ensures BookOk(after.books[k]) && Anchored(after, after.books[k])
    {
      if k != id {
        assert BookOk(s.books[k]) && Anchored(s, s.books[k]);
      }
    }
  }

  lemma NewBookOwesNothing(terms: Terms, quoteMint: Pubkey, mint: Pubkey)
    ensures Demand(NewBook(terms, quoteMint), mint) == 0
  {
  }

  lemma NewBookOk(terms: Terms, quoteMint: Pubkey)
    requires terms.caps.Validate().Ok?
    ensures BookOk(NewBook(terms, quoteMint))
  {
    hide Caps.Validate, ListingChecks;
    var b := NewBook(terms, quoteMint);
    assert Balanced(b);
    assert Backed(b, NO_AMOUNTS);
  }

  // --------------------------------------------------------------- base legs

  /** The live state an issuer's mint and the pool's vault show when a leg is listed. */
  datatype Issuer = Issuer(mint: Pubkey, decimals: nat, live: LegLive)

  /** Raw issuer units per share unit: a power of ten that fits u64, or none. */
  function Scale(m: Market, issuer: Issuer): Rules.Option<u64> {
    if m.terms.shareDecimals <= issuer.decimals <= m.terms.shareDecimals + MAX_SCALE_EXPONENT then
      Pow10Fits(issuer.decimals - m.terms.shareDecimals);
      Some(Pow10(issuer.decimals - m.terms.shareDecimals))
    else None
  }

  predicate CanAddBase(s: Chain, id: Pubkey, issuer: Issuer) {
    && id in s.books && issuer.mint in s.pools
    && var m := s.books[id].market;
    && (m.state == SCHEDULED || m.state == OPEN) && s.now < m.terms.tradingCutoff
    && m.bases < MAX_BASES && (forall c | 0 <= c <= m.bases :: m.mints[c] != issuer.mint)
    && Scale(m, issuer).Some?
    && !issuer.live.paused && !issuer.live.frozen
    && ListingChecks(m.terms.caps.maxQuantity, m.terms.caps.step, Scale(m, issuer).value, issuer.live.multiplier)
  }

  function Listing(m: Market, issuer: Issuer): Market
    requires m.bases < MAX_BASES && Scale(m, issuer).Some?
  {
    var c := m.bases + 1;
    m.(bases := c, mints := m.mints[c := issuer.mint],
       legs := m.legs[c - 1 := BaseLeg(Scale(m, issuer).value, issuer.live.multiplier, true)],
       initialized := m.initialized + {Underlying(c)})
  }

  function Remarketed(s: Chain, id: Pubkey, m: Market): Chain
    requires id in s.books
  {
    s.(books := s.books[id := s.books[id].(market := m)])
  }

  /** A market record that admits the orders and backs the claims of the one it replaces. */
  ghost predicate Succeeds(m: Market, n: Market) {
    && n.terms == m.terms && m.bases <= n.bases && n.sequence == m.sequence
    && (forall c | 0 <= c <= m.bases :: n.mints[c] == m.mints[c])
    && (n.Payouts() == m.Payouts()
        || (m.Payouts().None? && n.Payouts().Some? && ValidPayout(n.payouts.0, n.payouts.1)))
  }

  lemma SuccessorBookOk(b: Book, n: Market)
    requires BookOk(b) && Succeeds(b.market, n) && LegsOk(n) && LifecycleOk(n)
    ensures BookOk(b.(market := n))
  {
    hide Caps.Validate, Caps.ValidateOrder, Ceil, LegsOk, LifecycleOk, Ledgers.Liability, Balanced, Market.Payouts,
      BoundNonce, SingleBase;
    var r := b.(market := n);
    assert Balanced(r) by { MarketIsNoLedger(b, n); }
    forall k | k in r.orders
      ensures OrderOk(r.market, k, r.orders[k])
    {
      assert OrderOk(b.market, k, b.orders[k]);
    }
    SuccessorBacked(b, n);
  }

  lemma MarketIsNoLedger(b: Book, n: Market)
    requires Balanced(b)
    ensures Balanced(b.(market := n))
  {
  }

  lemma SuccessorBacked(b: Book, n: Market)
    requires Backed(b, NO_AMOUNTS) && Succeeds(b.market, n)
    ensures Backed(b.(market := n), NO_AMOUNTS)
  {
    hide Ledgers.Liability;
    forall c | 0 <= c < COLLATERALS
      ensures CollateralBacked(n, b.ledgers, b.tokens, NO_AMOUNTS, c)
    {
      assert CollateralBacked(b.market, b.ledgers, b.tokens, NO_AMOUNTS, c);
    }
    forall a | 0 <= a < ASSETS && IsClaim(a)
      ensures ClaimCovered(b.ledgers, b.tokens, NO_AMOUNTS, a)
    {
      assert ClaimCovered(b.ledgers, b.tokens, NO_AMOUNTS, a);
    }
  }

  /** Newly listed collaterals owe nothing, so replacing the market record moves no pool. */
  lemma SuccessorDemand(s: Chain, b: Book, n: Market, mint: Pubkey)
    requires BookOk(b) && Succeeds(b.market, n)
    ensures Demand(b.(market := n), mint) == Demand(b, mint)
  {
    hide Core, Backed, LegsOk, LifecycleOk, ExposureCapped, UnlistedEmpty, OnlyResting, Drained, Ledgers.Liability,
      Market.Payouts;
    forall c | 0 <= c < COLLATERALS
      ensures Share(b.(market := n), mint, c) == Share(b, mint, c)
    {
      if c > b.market.bases {
        UnlistedOwesNothing(b, c);
      }
    }
  }

  lemma RemarketedKeepsInv(s: Chain, id: Pubkey, n: Market)
    requires Inv(s) && id in s.books && Succeeds(s.books[id].market, n) && LegsOk(n) && LifecycleOk(n)
    requires forall c | 0 <= c <= n.bases :: n.mints[c] in s.pools
    ensures Inv(Remarketed(s, id, n))
  {
    hide BookOk, Demand, Succeeds, LegsOk, LifecycleOk;
    var b, after := s.books[id], Remarketed(s, id, n);
    assert BookOk(b) && Anchored(s, b);
    SuccessorBookOk(b, n);
    forall p | p in after.pools
      ensures after.pools[p].liability == SumBy(after.credits, CreditIn(p)) + SumBy(after.books, DemandOf(p))
    {
      SumUpdate(s.books, id, b.(market := n), DemandOf(p));
      SuccessorDemand(s, b, n, p);
    }
    forall k | k in after.books
      ensures BookOk(after.books[k]) && Anchored(after, after.books[k])
    {
      if k != id {
        assert BookOk(s.books[k]) && Anchored(s, s.books[k]);
      }
    }
  }

  lemma AddBaseKeepsInv(s: Chain, id: Pubkey, issuer: Issuer)
    requires Inv(s) && CanAddBase(s, id, issuer)
    ensures Inv(Remarketed(s, id, Listing(s.books[id].market, issuer)))
  {
    hide Inv, BookOk, ListingChecks, Scale;
    InvBook(s, id);
    BookParts(s.books[id]);
    var m := s.books[id].market;
    var n := Listing(m, issuer);
    ListedLegs(m, n, issuer);
    RemarketedKeepsInv(s, id, n);
  }

  lemma ListedLegs(m: Market, n: Market, issuer: Issuer)
    requires LegsOk(m) && LifecycleOk(m) && m.bases < MAX_BASES && (m.state == SCHEDULED || m.state == OPEN)
    requires Scale(m, issuer).Some?
    requires forall c | 0 <= c <= m.bases :: m.mints[c] != issuer.mint
    requires ListingChecks(m.terms.caps.maxQuantity, m.terms.caps.step, Scale(m, issuer).value, issuer.live.multiplier)
    requires n == Listing(m, issuer)
    ensures LegsOk(n) && LifecycleOk(n) && Succeeds(m, n)
  {
    hide ListingChecks, Scale;
    forall c | 1 <= c <= n.bases
      ensures LegOk(n, c)
    {
      if c <= m.bases {
        assert LegOk(m, c);
      }
    }
  }

  predicate CanSetBase(s: Chain, id: Pubkey, c: nat, active: bool) {
    && id in s.books && 1 <= c <= MAX_BASES && s.books[id].market.Listed(c)
    && s.books[id].market.legs[c - 1].active != active
  }

  function Activated(m: Market, c: nat, active: bool): Market
    requires 1 <= c <= MAX_BASES
  {
    m.(legs := m.legs[c - 1 := m.legs[c - 1].(active := active)])
  }

  lemma SetBaseKeepsInv(s: Chain, id: Pubkey, c: nat, active: bool)
    requires Inv(s) && CanSetBase(s, id, c, active)
    ensures Inv(Remarketed(s, id, Activated(s.books[id].market, c, active)))
  {
    hide Inv, BookOk, ListingChecks;
    InvBook(s, id);
    BookParts(s.books[id]);
    var m := s.books[id].market;
    var n := Activated(m, c, active);
    forall d | 1 <= d <= n.bases
      ensures LegOk(n, d)
    {
      assert LegOk(m, d);
    }
    BookMints(s, id);
    RemarketedKeepsInv(s, id, n);
  }

  lemma BookMints(s: Chain, id: Pubkey)
    requires Inv(s) && id in s.books
    ensures forall c | 0 <= c <= s.books[id].market.bases :: s.books[id].market.mints[c] in s.pools
  {
    hide BookOk;
    assert Anchored(s, s.books[id]);
  }

  // --------------------------------------------------------------- lifecycle

  /** The state a lifecycle action leads to, if the market is in the state it leaves. */
  function LifecycleStep(m: Market, now: int, action: nat, committed: bool): Rules.Option<nat> {
    match action
    case 0 => if m.state == SCHEDULED && m.Openable() && m.terms.tradingOpen <= now < m.terms.tradingCutoff then
      Some(OPEN) else None
    case 1 => if committed && (m.state == SCHEDULED || m.state == OPEN) then Some(FROZEN) else None
    case 2 => if m.state == OPEN && now >= m.terms.tradingCutoff then Some(FROZEN) else None
    case 3 => if m.state == FROZEN && committed then Some(AWAITING) else None
    case 4 => if m.state == REDEEMABLE && committed then Some(ARCHIVED) else None
    case _ => None
  }

  lemma LifecycleKeepsInv(s: Chain, id: Pubkey, action: nat, committed: bool)
    requires Inv(s) && id in s.books && LifecycleStep(s.books[id].market, s.now, action, committed).Some?
    ensures var m := s.books[id].market;
            Inv(Remarketed(s, id, m.(state := LifecycleStep(m, s.now, action, committed).value)))
  {
    hide Inv, BookOk, ListingChecks;
    InvBook(s, id);
    BookParts(s.books[id]);
    BookMints(s, id);
    var m := s.books[id].market;
    var n := m.(state := LifecycleStep(m, s.now, action, committed).value);
    forall d | 1 <= d <= n.bases
      ensures LegOk(n, d)
    {
      assert LegOk(m, d);
    }
    RemarketedKeepsInv(s, id, n);
  }

  predicate CanResolve(s: Chain, id: Pubkey, yes: nat, no: nat) {
    id in s.books && ValidPayout(yes, no) && s.books[id].market.state == AWAITING
  }

  function Resolved(m: Market, yes: nat, no: nat): Market {
    m.(payouts := (yes, no), state := REDEEMABLE)
  }

  /** Whatever the outcome, what is outstanding when it becomes known is already backed. */
  lemma ResolveKeepsInv(s: Chain, id: Pubkey, yes: nat, no: nat)
    requires Inv(s) && CanResolve(s, id, yes, no)
    ensures Inv(Remarketed(s, id, Resolved(s.books[id].market, yes, no)))
  {
    hide Inv, BookOk, ListingChecks;
    InvBook(s, id);
    BookParts(s.books[id]);
    BookMints(s, id);
    var m := s.books[id].market;
    var n := Resolved(m, yes, no);
    forall d | 1 <= d <= n.bases
      ensures LegOk(n, d)
    {
      assert LegOk(m, d);
    }
    RemarketedKeepsInv(s, id, n);
  }

  predicate CanInitializeClaims(s: Chain, id: Pubkey, c: nat) {
    && id in s.books && c < COLLATERALS && s.books[id].market.Listed(c)
    && Claim(c, 0) !in s.books[id].market.initialized && Claim(c, 1) !in s.books[id].market.initialized
  }

  function ClaimsInitialized(m: Market, c: nat): Market {
    m.(initialized := m.initialized + {Claim(c, 0), Claim(c, 1)})
  }

  lemma InitializeClaimsKeepsInv(s: Chain, id: Pubkey, c: nat)
    requires Inv(s) && CanInitializeClaims(s, id, c)
    ensures Inv(Remarketed(s, id, ClaimsInitialized(s.books[id].market, c)))
  {
    hide Inv, BookOk, ListingChecks;
    InvBook(s, id);
    BookParts(s.books[id]);
    BookMints(s, id);
    var m := s.books[id].market;
    var n := ClaimsInitialized(m, c);
    forall d | 1 <= d <= n.bases
      ensures LegOk(n, d)
    {
      assert LegOk(m, d);
    }
    RemarketedKeepsInv(s, id, n);
  }

  // ------------------------------------------------------ what governance changes

  /** One share unit is ten to the difference of the decimals raw units. */
  lemma ScaleIs(m: Market, issuer: Issuer)
    requires Scale(m, issuer).Some?
    ensures Scale(m, issuer).value * Pow10(m.terms.shareDecimals) == Pow10(issuer.decimals)
  {
    Pow10Add(issuer.decimals - m.terms.shareDecimals, m.terms.shareDecimals);
  }

  lemma {:induction false} Pow10Add(n: nat, k: nat)
    ensures Pow10(n + k) == Pow10(n) * Pow10(k)
  {
    if k == 0 {
    } else {
      Pow10Add(n, k - 1);
      assert n + k - 1 == n + (k - 1);
      assert Pow10(n) * (10 * Pow10(k - 1)) == 10 * (Pow10(n) * Pow10(k - 1));
    }
  }

  /** A new market can trade in its window only, is scheduled, holds nothing and owes nobody; its caps admit
      one whole step at the least price. */
  lemma CreationIs(s: Chain, id: Pubkey, terms: Terms)
    requires CanCreate(s, id, terms)
    ensures id !in s.books && 0 <= terms.tradingOpen < terms.tradingCutoff && s.now < terms.tradingCutoff
    ensures terms.shareDecimals <= 18 && terms.caps.step > 0 && terms.caps.tick > 0
    ensures terms.caps.ValidateOrder(terms.caps.step, terms.caps.MinimumPrice()).Ok?
    ensures var b := Created(s, id, terms).books[id];
            && b.market.terms == terms && b.market.state == SCHEDULED && b.market.bases == 0
            && b.market.mints[QUOTE] == s.quoteMint && b.market.sequence == [0, 0]
            && b.wallets == map[] && b.orders == map[]
            && forall a | 0 <= a < ASSETS :: b.ledgers.Liability(a) == 0 && b.tokens[a] == ClaimTokens(0, 0)
  {
    ValidCapsAdmitAnOrder(terms.caps);
  }

  /** A listing adds one leg behind the others: active, at the issuer's mint and live multiplier, of a mint
      the market did not have; it was neither paused nor frozen, and the market could still trade. */
  lemma ListingAddsALeg(s: Chain, id: Pubkey, issuer: Issuer)
    requires CanAddBase(s, id, issuer)
    ensures var m := s.books[id].market;
            var n, c := Listing(m, issuer), m.bases + 1;
            && c <= MAX_BASES && n.bases == c && n.mints[c] == issuer.mint && issuer.mint in s.pools
            && n.legs[c - 1].multiplier == issuer.live.multiplier && n.legs[c - 1].active
            && n.legs[c - 1].scale * Pow10(m.terms.shareDecimals) == Pow10(issuer.decimals)
            && !issuer.live.paused && !issuer.live.frozen && s.now < m.terms.tradingCutoff
            && (m.state == SCHEDULED || m.state == OPEN)
            && (forall d | 0 <= d < c :: n.mints[d] == m.mints[d] && n.mints[d] != issuer.mint)
            && (forall i | 0 <= i < m.bases :: n.legs[i] == m.legs[i])
            && n == m.(bases := n.bases, mints := n.mints, legs := n.legs, initialized := n.initialized)
  {
    hide Scale, ListingChecks;
    ScaleIs(s.books[id].market, issuer);
  }

  /** Switching a leg changes whether that leg trades, and nothing else of the market. */
  lemma SwitchingIsExact(s: Chain, id: Pubkey, c: nat, active: bool, d: nat)
    requires CanSetBase(s, id, c, active) && 1 <= d <= MAX_BASES
    ensures var m := s.books[id].market;
            var n := Activated(m, c, active);
            && n.Active(c) == active && m.Active(c) != active
            && (d != c ==> n.Active(d) == m.Active(d))
            && n.legs[d - 1].scale == m.legs[d - 1].scale && n.legs[d - 1].multiplier == m.legs[d - 1].multiplier
            && n == m.(legs := n.legs)
  {
  }
}
