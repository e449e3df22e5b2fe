/** Protocol-wide custody: listing pools, opening credit accounts, deposits and withdrawals
    with tokens that may charge a transfer fee, and donations. */
module Pools {
  import opened Exact
  import opened Rules
  import opened Sums
  import opened State
  import opened Settlement
  import opened InFlight
  import opened Matching
  import opened Chain
  import opened Exchange
  import opened Placing

  /** A pool's ledger and vault, and one owner's credit in it, after a transfer. */
  function Transacted(s: Chain, mint: Pubkey, owner: Pubkey, credit: int, vault: int): Chain
    requires mint in s.pools
  {
    var key := CreditKey(mint, owner);
    var pool := s.pools[mint];
    var available := if key in s.credits then s.credits[key] else 0;
    s.(pools := s.pools[mint := Pool(pool.liability + credit, pool.vault + vault)],
       credits := s.credits[key := available + credit])
  }

  /** A deposit credits what the vault received: less than was sent, if the token charges for
      transfers. Receipts are the token program's choice within its own 64-bit balance. */
  predicate CanDepositPool(s: Chain, mint: Pubkey, owner: Pubkey, amount: u64, minimum: u64, received: u64) {
    && mint in s.pools && amount > 0 && 0 < minimum <= received <= amount
    && s.pools[mint].vault + received <= U64_MAX
  }

  /** A withdrawal debits what the vault sends, whatever of it arrives. */
  predicate CanWithdrawPool(s: Chain, mint: Pubkey, owner: Pubkey, amount: u64, minimum: u64, received: u64) {
    && mint in s.pools && amount > 0 && 0 < minimum <= received <= amount
    && CreditKey(mint, owner) in s.credits && s.credits[CreditKey(mint, owner)] >= amount
  }

  /** An owner's credit is part of its pool's liability, and that is in the vault. */
  lemma CreditInPool(s: Chain, key: CreditKey)
    requires Inv(s) && key in s.credits
    ensures key.mint in s.pools && 0 <= s.credits[key] <= s.pools[key.mint].liability <= s.pools[key.mint].vault
            <= U64_MAX
  {
    hide BookOk, Anchored;
    forall k | k in s.books
      ensures DemandOf(key.mint)(k, s.books[k]) >= 0
    {
      BookCore(s, k);
      DemandNonNegative(s.books[k], key.mint);
    }
    SumNonNegative(s.books, DemandOf(key.mint));
    SumAtLeast(s.credits, key, CreditIn(key.mint));
  }

  lemma BookCore(s: Chain, id: Pubkey)
    requires BooksOk(s) && id in s.books
    ensures Core(s.books[id])
  {
    hide Core;
    assert BookOk(s.books[id]);
  }

  lemma TransactedKeepsInv(s: Chain, mint: Pubkey, owner: Pubkey, credit: int, vault: int)
    requires Inv(s) && mint in s.pools
    requires var key := CreditKey(mint, owner); (if key in s.credits then s.credits[key] else 0) + credit >= 0
    requires var pool := s.pools[mint]; 0 <= pool.liability + credit <= pool.vault + vault <= U64_MAX
    ensures Inv(Transacted(s, mint, owner, credit, vault))
  {
    hide BookOk, Demand;
    var key := CreditKey(mint, owner);
    var after := Transacted(s, mint, owner, credit, vault);
    forall p | p in after.pools
      ensures after.pools[p].liability == SumBy(after.credits, CreditIn(p)) + SumBy(after.books, DemandOf(p))
    {
      SumUpdate(s.credits, key, after.credits[key], CreditIn(p));
    }
    forall id | id in after.books
      ensures BookOk(after.books[id]) && Anchored(after, after.books[id])
    {
      assert BookOk(s.books[id]) && Anchored(s, s.books[id]);
    }
  }

  lemma DepositPoolKeepsInv(s: Chain, mint: Pubkey, owner: Pubkey, amount: u64, minimum: u64, received: u64)
    requires Inv(s) && CanDepositPool(s, mint, owner, amount, minimum, received)
    ensures Inv(Transacted(s, mint, owner, received, received))
  {
    hide BookOk, BooksOk, PoolsBalanced;
    TransactedKeepsInv(s, mint, owner, received, received);
  }

  /** No withdrawal can be refused for lack of liability or tokens: the owner's credit is in both. */
  lemma WithdrawPoolKeepsInv(s: Chain, mint: Pubkey, owner: Pubkey, amount: u64, minimum: u64, received: u64)
    requires Inv(s) && CanWithdrawPool(s, mint, owner, amount, minimum, received)
    ensures s.pools[mint].liability >= amount && s.pools[mint].vault >= amount
    ensures Inv(Transacted(s, mint, owner, -(amount as int), -(amount as int)))
  {
    hide BookOk, BooksOk, PoolsBalanced;
    CreditInPool(s, CreditKey(mint, owner));
    TransactedKeepsInv(s, mint, owner, -(amount as int), -(amount as int));
  }

  /** Tokens sent to a vault without a deposit are nobody's. */
  function Donated(s: Chain, mint: Pubkey, amount: nat): Chain
    requires mint in s.pools
  {
    s.(pools := s.pools[mint := s.pools[mint].(vault := s.pools[mint].vault + amount)])
  }

  lemma DonationKeepsInv(s: Chain, mint: Pubkey, amount: nat)
    requires Inv(s) && mint in s.pools && s.pools[mint].vault + amount <= U64_MAX
    ensures Inv(Donated(s, mint, amount))
  {
    hide BookOk, Demand;
    BooksKeep(s, Donated(s, mint, amount));
  }

  lemma BooksKeep(s: Chain, r: Chain)
    requires BooksOk(s) && r.books == s.books && s.pools.Keys <= r.pools.Keys && s.traders.Keys <= r.traders.Keys
    ensures BooksOk(r)
  {
    hide BookOk;
    forall id | id in r.books
      ensures BookOk(r.books[id]) && Anchored(r, r.books[id])
    {
      assert BookOk(s.books[id]) && Anchored(s, s.books[id]);
    }
  }

  /** A new pool owes nothing. */
  function PoolListed(s: Chain, mint: Pubkey): Chain {
    s.(pools := s.pools[mint := Pool(0, 0)])
  }

  lemma ListPoolKeepsInv(s: Chain, mint: Pubkey)
    requires Inv(s) && mint !in s.pools
    ensures Inv(PoolListed(s, mint))
  {
    hide BookOk, Demand;
    var after := PoolListed(s, mint);
    forall k | k in s.credits
      ensures CreditIn(mint)(k, s.credits[k]) == 0
    {
    }
    SumZero(s.credits, CreditIn(mint));
    forall id | id in s.books
      ensures DemandOf(mint)(id, s.books[id]) == 0
    {
      UnlistedMint(s, s.books[id], mint);
    }
    SumZero(s.books, DemandOf(mint));
    BooksKeep(s, after);
  }

  lemma UnlistedMint(s: Chain, b: Book, mint: Pubkey)
    requires Anchored(s, b) && mint !in s.pools
    ensures Demand(b, mint) == 0
  {
    forall c | 0 <= c < COLLATERALS
      ensures Share(b, mint, c) == 0
    {
    }
  }

  /** Opening a credit account resets nothing. */
  function CreditOpened(s: Chain, key: CreditKey): Chain {
    if key in s.credits then s else s.(credits := s.credits[key := 0])
  }

  lemma OpenCreditKeepsInv(s: Chain, key: CreditKey)
    requires Inv(s) && key.mint in s.pools
    ensures Inv(CreditOpened(s, key))
  {
    hide BookOk, Demand;
    var after := CreditOpened(s, key);
    forall p | p in after.pools
      ensures after.pools[p].liability == SumBy(after.credits, CreditIn(p)) + SumBy(after.books, DemandOf(p))
    {
      SumUpdate(s.credits, key, 0, CreditIn(p));
    }
    BooksKeep(s, after);
  }
}
