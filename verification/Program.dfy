/** The program: one object holding every account of a deployment, whose methods are the
    instruction handlers. Each succeeds exactly when the protocol's action can be taken, and
    leaves exactly the state the action leaves; a refused instruction changes nothing. */
module Program {
  import opened Rules
  import opened Sums
  import opened Conversion
  import opened State
  import opened Settlement
  import opened InFlight
  import opened Matching
  import opened Chain
  import opened Exchange
  import opened Placing
  import opened Completion
  import opened Positions
  import opened Releases
  import opened Custody
  import opened Pools
  import opened Governance
  import opened Protocol
  import opened Fills
  import opened Guards
  import opened Session
  import opened PlaceHandler
  import opened PositionHandler
  import opened ReleaseHandler
  import opened Authority

  class Program {
    var now: int
    var config: Config
    var quoteMint: Pubkey
    var pools: map<Pubkey, Pool>
    var credits: map<CreditKey, int>
    var traders: map<Pubkey, u64>
    var books: map<Pubkey, Book>

    /** A fresh deployment: no fees, nothing listed. */
    constructor (now: int, quoteMint: Pubkey)
      ensures Initial(State())
    {
      this.now, this.quoteMint := now, quoteMint;
      config := Config(false, 0, 0);
      pools, credits, traders, books := map[], map[], map[], map[];
    }

    function State(): Chain
      reads this
    {
      Chain(now, config, quoteMint, pools, credits, traders, books)
    }

    // ------------------------------------------------------------ placing

    method Place(id: Pubkey, r: Request) returns (o: Outcome)
      requires Inv(State())
      modifies this`books, this`credits
      ensures o.Done? <==> Admissible(old(State()), id, r)
      ensures State() == if o.Done? then Placed(old(State()), id, r) else old(State())
    {
      hide Inv, Fillable, Admissible, Ticks, Placed;
      var b, after;
      o, b, after := Attempt(State(), id, r);
      if o.Done? {
        books, credits := books[id := b], after;
      }
    }
  
    // ---------------------------------------------------------- positions

    method Split(id: Pubkey, owner: Pubkey, c: nat, amount: u64, leg: LegLive) returns (o: Outcome)
      requires Inv(State())
      modifies this`books, this`credits
      ensures o.Done? <==> CanSplit(old(State()), id, owner, c, amount, leg)
      ensures State() == if o.Done? then Repositioned(old(State()), id, owner, c, amount, amount, amount)
              else old(State())
    {
      hide Inv, Position, PositionRoom, CheckCollateral, Market.Ready, Exposable, Ledgers.Liability;
      if !Positioned(State(), id, owner, c) { return Fail(InvalidAsset); }
      PositionHasRoom(State(), id, owner, c);
      var mint := books[id].market.mints[c];
      CreditsNonNegative(State(), CreditKey(mint, owner));
      var session := new Session(books[id]);
      var credit;
      o, credit := PositionHandler.Split(session, owner, c, amount, leg, credits[CreditKey(mint, owner)],
                                         pools[mint].vault);
      if o.Done? {
        books, credits := books[id := session.Image()], credits[CreditKey(mint, owner) := credit];
      }
    }

    /** Claims are given up for what they pay. */
    method TakeClaims(id: Pubkey, owner: Pubkey, c: nat, yes: u64, no: u64, paid: nat) returns (o: Outcome)
      requires Inv(State()) && Positioned(State(), id, owner, c) && Worth(books[id].market, yes, no, paid)
      modifies this`books, this`credits
      ensures o.Done? <==> Holds(old(books[id]), owner, c, yes, no)
      ensures State() == if o.Done? then
              Repositioned(old(State()), id, owner, c, -(yes as int), -(no as int), -(paid as int))
                         else old(State())
    {
      hide Inv, Position, PositionRoom, CheckCollateral, Market.Ready, Holds, Worth, Ledgers.Liability, TakeRoom;
      PositionHasRoom(State(), id, owner, c);
      TakeHasRoom(State(), id, owner, c, yes, no, paid);
      var mint := books[id].market.mints[c];
      CreditsNonNegative(State(), CreditKey(mint, owner));
      var session := new Session(books[id]);
      var credit;
      o, credit := PositionHandler.Take(session, owner, c, yes, no, paid, credits[CreditKey(mint, owner)],
                                        pools[mint].vault);
      if o.Done? {
        books, credits := books[id := session.Image()], credits[CreditKey(mint, owner) := credit];
      }
    }

    method Merge(id: Pubkey, owner: Pubkey, c: nat, amount: u64) returns (o: Outcome)
      requires Inv(State())
      modifies this`books, this`credits
      ensures o.Done? <==> CanMerge(old(State()), id, owner, c, amount)
      ensures State() == if o.Done? then
              Repositioned(old(State()), id, owner, c, -(amount as int), -(amount as int), -(amount as int))
                         else old(State())
    {
      hide Inv, Market.Ready, Holds, Repositioned;
      if !Positioned(State(), id, owner, c) { return Fail(InvalidAsset); }
      if amount == 0 { return Fail(ProtocolError.InvalidTerms); }
      o := TakeClaims(id, owner, c, amount, amount, amount);
    }

    method Redeem(id: Pubkey, owner: Pubkey, c: nat, yes: u64, no: u64) returns (o: Outcome)
      requires Inv(State())
      modifies this`books, this`credits
      ensures o.Done? <==> CanRedeem(old(State()), id, owner, c, yes, no)
      ensures State() == if o.Done? then Repositioned(old(State()), id, owner, c, -(yes as int), -(no as int),
                                                      -(Payment(old(books[id]).market, yes, no).value as int))
                         else old(State())
    {
      hide Inv, Market.Ready, Holds, Repositioned, Redemption, Weighted;
      if !Positioned(State(), id, owner, c) { return Fail(InvalidAsset); }
      if yes == 0 && no == 0 { return Fail(ProtocolError.InvalidTerms); }
      var m := books[id].market;
      if m.state != REDEEMABLE && m.state != ARCHIVED { return Fail(ProtocolError.InvalidState); }
      var paid := Redemption(yes, no, m.payouts.0, m.payouts.1);
      if paid.Err? { return Fail(ProtocolError.FractionalRedemption); }
      PaymentIsWorth(State(), id, yes, no);
      o := TakeClaims(id, owner, c, yes, no, paid.value);
    }

    // ------------------------------------------------- cancelling, retiring

    method Cancel(id: Pubkey, actor: Pubkey, granted: set<OrderKey>, key: OrderKey, frames: seq<Frame>)
        returns (o: Outcome)
      requires Inv(State())
      modifies this`books, this`credits
      ensures o.Done? <==> CanCancel(old(State()), id, actor, granted, key, frames)
      ensures o.Done? ==>
              && old(id in books && key in books[id].orders && key.owner in traders)
              && (actor == key.owner || key in granted || old(CannotTrade(State(), id, key)))
      ensures State() == if o.Done? then Processed(old(State()), id, frames, [key], false) else old(State())
    {
      hide Inv, Processed, Releasable, Delisted, FramesOk, Refundable, CannotTrade;
      if !CanCancel(State(), id, actor, granted, key, frames) { return Fail(ProtocolError.Unauthorized); }
      CancelNeedsAuthority(State(), id, actor, granted, key, frames);
      CancelRefunds(State(), id, actor, granted, key, frames);
      var b, after := ProcessBatch(State(), id, frames, [key], false);
      books, credits := books[id := b], after;
      o := Done;
    }

    method ProcessOrders(id: Pubkey, actor: Pubkey, owner: Pubkey, granted: set<OrderKey>, frames: seq<Frame>,
                         keys: seq<OrderKey>, retire: bool) returns (o: Outcome)
      requires Inv(State())
      modifies this`books, this`credits
      ensures o.Done? <==> CanProcess(old(State()), id, actor, owner, granted, frames, keys, retire)
      ensures o.Done? ==> actor == owner || (!retire && forall k | k in keys :: k in granted)
      ensures State() == if o.Done? then Processed(old(State()), id, frames, keys, retire) else old(State())
    {
      hide Inv, Processed, FramesOk, Retirable;
      if !(id in books && owner in books[id].wallets && owner in traders) { return Fail(ProtocolError.InvalidAccount); }
      if actor != owner && retire { return Fail(ProtocolError.Unauthorized); }
      if !(0 < |keys| <= MAX_MAKERS && |frames| <= COLLATERALS) { return Fail(ProtocolError.InvalidTerms); }
      if !(FramesOk(credits, books[id], frames) && forall f | f in frames :: f.owner == owner) {
        return Fail(ProtocolError.InvalidAccount);
      }
      if !(Distinct(keys) && forall k | k in keys :: k in books[id].orders && k.owner == owner) {
        return Fail(ProtocolError.InvalidAccount);
      }
      if !(actor == owner || forall k | k in keys :: k in granted) { return Fail(ProtocolError.Unauthorized); }
      if !(!retire || forall k | k in keys ::
           Retirable(books[id].market, now, books[id].orders[k].terms, traders[owner])) {
        return Fail(ProtocolError.InvalidOrder);
      }
      // A pool-funded reservation with no frame of its owner cannot be flushed back.
      if !(forall k | k in keys && books[id].orders[k].status == LIVE ::
             books[id].orders[k].terms.funding == 0 && books[id].orders[k].reserved != 0
             ==> Frame(k.owner, books[id].orders[k].terms.Collateral()) in frames) {
        return Fail(ProtocolError.InvalidAccount);
      }
      var b, after := ProcessBatch(State(), id, frames, keys, retire);
      books, credits := books[id := b], after;
      o := Done;
    }

    method InvalidateNonce(owner: Pubkey, minimum: u64) returns (o: Outcome)
      modifies this`traders
      ensures o.Done? <==> owner in old(traders) && minimum > old(traders)[owner]
      ensures traders == if o.Done? then old(traders)[owner := minimum] else old(traders)
    {
      if owner !in traders { return Fail(ProtocolError.InvalidAccount); }
      if minimum <= traders[owner] { return Fail(ProtocolError.InvalidTerms); }
      traders := traders[owner := minimum];
      o := Done;
    }

    // ------------------------------------------------------------- custody

    method DepositPool(mint: Pubkey, owner: Pubkey, amount: u64, minimum: u64, received: u64) returns (o: Outcome)
      requires Inv(State())
      modifies this`pools, this`credits
      ensures o.Done? <==> CanDepositPool(old(State()), mint, owner, amount, minimum, received)
      ensures State() == if o.Done? then Transacted(old(State()), mint, owner, received, received) else old(State())
    {
      hide BooksOk, PoolsBalanced;
      if mint !in pools { return Fail(ProtocolError.InvalidAccount); }
      if !(amount > 0 && 0 < minimum <= amount) { return Fail(ProtocolError.InvalidTerms); }
      var key, pool := CreditKey(mint, owner), pools[mint];
      var available := if key in credits then credits[key] else 0;
      assert pool.vault >= pool.liability;
      if received > amount || pool.vault + received > U64_MAX { return Fail(ProtocolError.TokenDelta); }
      if received < minimum { return Fail(TransferSlippage); }
      if key in credits { CreditInPool(State(), key); }
      assert available + received <= U64_MAX && pool.liability + received <= U64_MAX;
      credits := credits[key := available + received];
      pools := pools[mint := Pool(pool.liability + received, pool.vault + received)];
      assert pools[mint].vault >= pools[mint].liability;
      o := Done;
    }

    method WithdrawPool(mint: Pubkey, owner: Pubkey, amount: u64, minimum: u64, received: u64) returns (o: Outcome)
      requires Inv(State())
      modifies this`pools, this`credits
      ensures o.Done? <==> CanWithdrawPool(old(State()), mint, owner, amount, minimum, received)
      ensures State() == if o.Done? then Transacted(old(State()), mint, owner, -(amount as int), -(amount as int))
              else old(State())
    {
      hide BooksOk, PoolsBalanced;
      if mint !in pools { return Fail(ProtocolError.InvalidAccount); }
      if !(amount > 0 && 0 < minimum <= amount) { return Fail(ProtocolError.InvalidTerms); }
      var key, pool := CreditKey(mint, owner), pools[mint];
      if key !in credits || credits[key] < amount { return Fail(InsufficientFunds); }
      CreditInPool(State(), key);
      if received > amount { return Fail(ProtocolError.TokenDelta); }
      if received < minimum { return Fail(TransferSlippage); }
      assert pool.liability >= amount && pool.vault >= amount;
      credits := credits[key := credits[key] - amount];
      pools := pools[mint := Pool(pool.liability - amount, pool.vault - amount)];
      assert pools[mint].vault >= pools[mint].liability;
      o := Done;
    }

    /** Claims a holder sends in are credited; custody covers what is owed before and after. */
    method Deposit(id: Pubkey, owner: Pubkey, asset: nat, amount: u64) returns (o: Outcome)
      requires Inv(State())
      modifies this`books
      ensures o.Done? <==> CanDeposit(old(State()), id, owner, asset, amount)
      ensures State() == if o.Done? then Moved(old(State()), id, owner, asset, amount, 0, 0, amount) else old(State())
    {
      hide Inv, Ledgers.Liability, ClaimMove, Post;
      if !(id in books && ClaimToken(books[id].market, asset)
           && owner in books[id].wallets) { return Fail(InvalidAsset); }
      if amount == 0 { return Fail(ProtocolError.InvalidTerms); }
      if amount > External(books[id], asset) { return Fail(InsufficientFunds); }
      ClaimFits(State(), id, owner, asset);
      ClaimMoveIs(books[id], owner, asset, amount, 0, 0, amount);
      var session := new Session(books[id]);
      assert session.tokens[asset].vault >= session.ledgers.Liability(asset);
      var t := session.tokens[asset];
      session.tokens := session.tokens[asset := ClaimTokens(t.supply, t.vault + amount)];
      o := session.Credit(owner, asset, amount);
      assert o.Done?;
      PostMovesLiability(Vaulted(books[id], asset, 0, amount), owner, asset, amount, asset);
      assert session.tokens[asset].vault >= session.ledgers.Liability(asset);
      books := books[id := session.Image()];
    }

    method Withdraw(id: Pubkey, owner: Pubkey, asset: nat, amount: u64) returns (o: Outcome)
      requires Inv(State())
      modifies this`books
      ensures o.Done? <==> CanWithdraw(old(State()), id, owner, asset, amount)
      ensures State() == if o.Done? then
              Moved(old(State()), id, owner, asset, -(amount as int), 0, 0, -(amount as int)) else old(State())
    {
      hide Inv, Ledgers.Liability, ClaimMove, Post;
      if !(id in books && ClaimToken(books[id].market, asset)
           && owner in books[id].wallets) { return Fail(InvalidAsset); }
      if amount == 0 { return Fail(ProtocolError.InvalidTerms); }
      ClaimFits(State(), id, owner, asset);
      ClaimMoveIs(books[id], owner, asset, -(amount as int), 0, 0, -(amount as int));
      var session := new Session(books[id]);
      assert session.tokens[asset].vault >= session.ledgers.Liability(asset);
      o := session.Debit(owner, asset, amount);
      if o.Fail? { return; }
      var t := session.tokens[asset];
      assert t.vault >= amount;
      session.tokens := session.tokens[asset := ClaimTokens(t.supply, t.vault - amount)];
      PostMovesLiability(books[id], owner, asset, -(amount as int), asset);
      assert session.tokens[asset].vault >= session.ledgers.Liability(asset);
      VaultBesidePost(books[id], owner, asset, -(amount as int), -(amount as int));
      books := books[id := session.Image()];
    }

    /** Claims move between two wallets; the market owes as much as before. */
    method TransferCredit(id: Pubkey, owner: Pubkey, target: Pubkey, asset: nat, amount: u64) returns (o: Outcome)
      requires Inv(State())
      modifies this`books
      ensures o.Done? <==> CanTransfer(old(State()), id, owner, target, asset, amount)
      ensures State() == if o.Done? then Transferred(old(State()), id, owner, target, asset, amount) else old(State())
    {
      hide Inv, Ledgers.Liability;
      if !(id in books && ClaimIndex(books[id].market, asset)) { return Fail(InvalidAsset); }
      if owner == target || owner !in books[id].wallets || target !in books[id].wallets { return Fail(InvalidAccount); }
      if amount == 0 { return Fail(ProtocolError.InvalidTerms); }
      var wallets := books[id].wallets;
      if wallets[owner].balances[asset] < amount { return Fail(InsufficientFunds); }
      BothFit(State(), id, owner, target, asset);
      assert wallets[target].balances[asset] + amount <= U64_MAX;
      TransferIs(books[id], owner, target, asset, amount);
      var source, destination := wallets[owner], wallets[target];
      source := source.(balances := source.balances[asset := source.balances[asset] - amount]);
      destination := destination.(balances := destination.balances[asset := destination.balances[asset] + amount]);
      books := books[id := books[id].(wallets := wallets[owner := source][target := destination])];
      o := Done;
    }

    method ClaimFees(id: Pubkey, target: Pubkey, asset: nat, amount: u64) returns (o: Outcome)
      requires Inv(State())
      modifies this`books
      ensures o.Done? <==> CanClaimFees(old(State()), id, target, asset, amount)
      ensures State() == if o.Done? then Moved(old(State()), id, target, asset, amount, -(amount as int), 0, 0)
              else old(State())
    {
      hide Inv, Ledgers.Liability, ClaimMove, Post;
      if !(id in books && ClaimIndex(books[id].market, asset)
           && target in books[id].wallets) { return Fail(InvalidAsset); }
      if amount == 0 { return Fail(ProtocolError.InvalidTerms); }
      var session := new Session(books[id]);
      if session.ledgers.fees[asset] < amount { return Fail(Insolvent); }
      FeesFit(State(), id, target, asset);
      ClaimMoveIs(books[id], target, asset, amount, -(amount as int), 0, 0);
      session.ledgers := session.ledgers.(fees := session.ledgers.fees[asset := session.ledgers.fees[asset] - amount]);
      o := session.Credit(target, asset, amount);
      assert o.Done?;
      books := books[id := session.Image()];
    }
  }

  // ------------------------------------------------------------- room for claims

  /** A wallet's claims, what the market owes and its custody, in order, within 64 bits. */
  lemma ClaimFits(s: Chain, id: Pubkey, owner: Pubkey, asset: nat)
    requires Inv(s) && id in s.books && owner in s.books[id].wallets && asset < ASSETS && IsClaim(asset)
    ensures var b := s.books[id];
            && 0 <= b.wallets[owner].balances[asset] <= b.ledgers.credits[asset] <= b.ledgers.Liability(asset)
               <= b.tokens[asset].vault
            && b.tokens[asset].vault <= b.tokens[asset].supply <= U64_MAX
  {
    hide Inv, BookOk, Ledgers.Liability, Core;
    InvBook(s, id);
    ClaimRoom(s.books[id], owner, asset);
    ClaimCustody(s, id, asset);
    ClaimLiability(s.books[id], asset);
  }

  /** Two wallets' claims together are within what the market owes. */
  lemma BothFit(s: Chain, id: Pubkey, source: Pubkey, target: Pubkey, asset: nat)
    requires Inv(s) && id in s.books && source in s.books[id].wallets && target in s.books[id].wallets
             && source != target
    requires asset < ASSETS && IsClaim(asset)
    ensures s.books[id].wallets[source].balances[asset] + s.books[id].wallets[target].balances[asset] <= U64_MAX
  {
    hide Inv, OrdersOk, TermsOk, LegsOk, LifecycleOk, Ledgers.Liability, Drained, ExposureCapped, UnlistedEmpty,
      OnlyResting, Backed;
    InvBook(s, id);
    var b := s.books[id];
    ClaimFits(s, id, source, asset);
    forall o | o in b.wallets
      ensures BalanceOf(asset)(o, b.wallets[o]) >= 0
    {
      ClaimFits(s, id, o, asset);
    }
    SumAtLeastTwo(b.wallets, source, target, BalanceOf(asset));
  }

  /** Fees and credits together are within what the market owes. */
  lemma FeesFit(s: Chain, id: Pubkey, target: Pubkey, asset: nat)
    requires Inv(s) && id in s.books && target in s.books[id].wallets && asset < ASSETS && IsClaim(asset)
    ensures var b := s.books[id]; b.ledgers.credits[asset] + b.ledgers.fees[asset] <= U64_MAX
    ensures 0 <= s.books[id].wallets[target].balances[asset] <= s.books[id].ledgers.credits[asset]
  {
    hide Inv, BookOk, Core;
    InvBook(s, id);
    ClaimFits(s, id, target, asset);
    LedgersNonNegative(s.books[id], asset);
  }

  /** A claim move in the handlers' order of updates. */
  lemma ClaimMoveIs(b: Book, owner: Pubkey, asset: nat, amount: int, fees: int, supply: int, vault: int)
    requires owner in b.wallets && asset < ASSETS
    ensures var fed := b.ledgers.(fees := b.ledgers.fees[asset := b.ledgers.fees[asset] + fees]);
            ClaimMove(b, owner, asset, amount, fees, supply, vault)
            == Post(Vaulted(b, asset, supply, vault).(ledgers := fed), owner, asset, amount)
    ensures fees == 0 ==>
            ClaimMove(b, owner, asset, amount, fees, supply, vault)
            == Post(Vaulted(b, asset, supply, vault), owner, asset, amount)
    ensures supply == vault == 0 ==> Vaulted(b, asset, supply, vault) == b
  {
    hide Post;
    assert b.ledgers.fees[asset := b.ledgers.fees[asset] + 0] == b.ledgers.fees;
    assert b.tokens[asset := b.tokens[asset]] == b.tokens;
  }

  lemma VaultBesidePost(b: Book, owner: Pubkey, asset: nat, amount: int, vault: int)
    requires owner in b.wallets && asset < ASSETS
    ensures Post(Vaulted(b, asset, 0, vault), owner, asset, amount)
         == Post(b, owner, asset, amount).(tokens :=
           b.tokens[asset := ClaimTokens(b.tokens[asset].supply, b.tokens[asset].vault + vault)])
  {
  }

  /** Both halves of a transfer leave the market's own counters as they were. */
  lemma TransferIs(b: Book, source: Pubkey, target: Pubkey, asset: nat, amount: int)
    requires source in b.wallets && target in b.wallets && source != target && asset < ASSETS
    ensures var paid := ClaimMove(b, source, asset, -amount, 0, 0, 0);
            var w, v := b.wallets[source], b.wallets[target];
            ClaimMove(paid, target, asset, amount, 0, 0, 0)
            == b.(wallets := b.wallets[source := w.(balances := w.balances[asset := w.balances[asset] - amount])]
                                      [target := v.(balances := v.balances[asset := v.balances[asset] + amount])])
  {
    ClaimMoveIs(b, source, asset, -amount, 0, 0, 0);
    var paid := ClaimMove(b, source, asset, -amount, 0, 0, 0);
    ClaimMoveIs(paid, target, asset, amount, 0, 0, 0);
    assert b.ledgers.credits[asset := b.ledgers.credits[asset] - amount][asset := b.ledgers.credits[asset]]
           == b.ledgers.credits;
  }

  /** A redemption pays what the claims are worth. */
  lemma PaymentIsWorth(s: Chain, id: Pubkey, yes: u64, no: u64)
    requires Inv(s) && id in s.books && Payment(s.books[id].market, yes, no).Ok?
    ensures Worth(s.books[id].market, yes, no, Payment(s.books[id].market, yes, no).value)
  {
    hide Inv, BookOk;
    InvBook(s, id);
    BookBacked(s.books[id], QUOTE);
  }
}
