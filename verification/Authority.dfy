/** Who may take whose order away: strangers only what can no longer trade, owners always their own. */
module Authority {
  import opened Rules
  import opened Conversion
  import opened State
  import opened Settlement
  import opened InFlight
  import opened Matching
  import opened Chain
  import opened Exchange
  import opened Placing
  import opened Completion
  import opened Releases
  import opened Protocol
  import opened Aging
  import A = Accounts

  /** Anyone may cancel an order that cannot trade any more: its market is not open, it has lapsed, its
      nonce is invalidated, or it delivers a leg that is not listed or not active. */
  predicate CannotTrade(s: Chain, id: Pubkey, key: OrderKey)
    requires id in s.books && key in s.books[id].orders && key.owner in s.traders
  {
    var m, t := s.books[id].market, s.books[id].orders[key].terms;
    || m.state != OPEN || s.now >= t.expiry || t.nonce < s.traders[key.owner]
    || (t.side == 1 && !exists i: nat | i < MAX_BASES :: t.bases == {i + 1} && i < m.bases && m.legs[i].active)
  }

  /** A cancelled order was open; its canceller owned it, was granted it, or could be anyone. */
  lemma CancelNeedsAuthority(s: Chain, id: Pubkey, actor: Pubkey, granted: set<OrderKey>, key: OrderKey,
                             frames: seq<Frame>)
    requires Can(s, Cancel(id, actor, granted, key, frames))
    ensures id in s.books && key in s.books[id].orders && key.owner in s.traders
    ensures s.books[id].orders[key].status == LIVE
    ensures actor == key.owner || key in granted || CannotTrade(s, id, key)
  {
    hide FramesOk;
    var m, t := s.books[id].market, s.books[id].orders[key].terms;
    if t.side == 1 && !m.Active(t.Collateral()) {
      InactiveLeg(m, t);
    }
  }

  lemma InactiveLeg(m: Market, t: OrderTerms)
    requires t.side == 1
    ensures m.Active(t.Collateral()) <==>
              exists i: nat | i < MAX_BASES :: t.bases == {i + 1} && i < m.bases && m.legs[i].active
  {
    if i: nat :| i < MAX_BASES && t.bases == {i + 1} && i < m.bases && m.legs[i].active {
      assert t.bases == {1} || t.bases == {2} || t.bases == {3};
      OneBase(i + 1);
    }
    if m.Active(t.Collateral()) {
      var c := t.Collateral();
      assert c - 1 < MAX_BASES && t.bases == {(c - 1) + 1};
    }
  }

  lemma OneBase(c: nat)
    requires 1 <= c <= MAX_BASES
    ensures SingleBase({c}) == Some(c)
  {
    assert {1} != {2} && {1} != {3} && {2} != {3} by {
      assert 1 in {1} && 2 in {2} && 1 !in {2} && 1 !in {3} && 2 !in {3};
    }
  }

  /** What cannot trade, anyone may cancel. */
  lemma StrangersMayClear(s: Chain, id: Pubkey, actor: Pubkey, key: OrderKey, frames: seq<Frame>)
    requires id in s.books && key in s.books[id].orders && key.owner in s.traders && key.owner in s.books[id].wallets
    requires s.books[id].orders[key].status == LIVE && CannotTrade(s, id, key)
    requires var o := s.books[id].orders[key];
             frames == (if o.terms.funding == 0 then [Frame(key.owner, o.terms.Collateral())] else [])
    requires FramesOk(s.credits, s.books[id], frames)
    ensures Can(s, Cancel(id, actor, {}, key, frames))
  {
    hide FramesOk;
    var m, t := s.books[id].market, s.books[id].orders[key].terms;
    if t.side == 1 {
      InactiveLeg(m, t);
    }
  }

  /** Its own frame loads for every open order of a run: the account it was funded from is there. */
  lemma OwnFrameLoads(s: Chain, id: Pubkey, key: OrderKey)
    requires Inv(s) && A.Hosted(s) && id in s.books && key in s.books[id].orders
    ensures key.owner in s.books[id].wallets && key.owner in s.traders
    ensures var o := s.books[id].orders[key];
            FramesOk(s.credits, s.books[id], if o.terms.funding == 0 then [Frame(key.owner, o.terms.Collateral())]
              else [])
  {
    hide Inv, Balanced, NonNegative, Backed, Drained, LegsOk, LifecycleOk, ExposureCapped, UnlistedEmpty, OnlyResting,
      Ceil, SingleBase, BoundNonce, Caps.ValidateOrder;
    InvBook(s, id);
    var b := s.books[id];
    assert OrderOk(b.market, key, b.orders[key]);
    assert A.HostedOrder(s, b, key);
    OwnersKnown(b, key);
  }

  lemma OwnersKnown(b: Book, key: OrderKey)
    requires Core(b) && key in b.orders
    ensures key.owner in b.wallets
  {
    hide OrdersOk, TermsOk, NonNegative, OrderTerms.Asset;
  }

  /** At any point of any run the owner of an open order can cancel it, whatever the state of the market
      or of its legs, by presenting the account the reservation returns to. */
  lemma OwnerCanAlwaysCancel(states: seq<Chain>, actions: seq<Action>, n: nat, id: Pubkey, key: OrderKey)
    requires Run(states, actions) && Initial(states[0]) && n < |states|
    requires id in states[n].books && key in states[n].books[id].orders
             && states[n].books[id].orders[key].status == LIVE
    ensures var o := states[n].books[id].orders[key];
            var frames := if o.terms.funding == 0 then [Frame(key.owner, o.terms.Collateral())] else [];
            Can(states[n], Cancel(id, key.owner, {}, key, frames))
  {
    hide Inv, Step, Initial, A.Hosted, FramesOk, Delisted, Releasable;
    RunKeepsInv(states, actions, n);
    A.RunKeepsHosted(states, actions, n);
    OwnFrameLoads(states[n], id, key);
  }

  /** A batch is its owner's, or cancels only what its actor was granted; retiring is the owner's alone,
      and only of orders whose market can never trade again or whose bound nonce is invalidated. */
  lemma BatchNeedsAuthority(s: Chain, id: Pubkey, actor: Pubkey, owner: Pubkey, granted: set<OrderKey>,
                            frames: seq<Frame>,
                            keys: seq<OrderKey>, retire: bool)
    requires Can(s, ProcessOrders(id, actor, owner, granted, frames, keys, retire))
    ensures 0 < |keys| <= MAX_MAKERS && id in s.books && owner in s.traders
    ensures forall k | k in keys :: k in s.books[id].orders && k.owner == owner
    ensures actor == owner || (!retire && keys[0] in granted && forall k | k in keys :: k in granted)
    ensures retire ==> forall k | k in keys ::
              var m, t := s.books[id].market, s.books[id].orders[k].terms;
              || s.now >= m.terms.tradingCutoff || m.state == FROZEN || m.state == AWAITING || m.state == REDEEMABLE
              || m.state == ARCHIVED
              || (t.salt[..8] == NONCE_BOUND_SALT && LittleEndian(t.salt[8..16]) == t.nonce < s.traders[owner])
  {
    hide FramesOk, Refundable, LittleEndian;
    assert keys[0] in keys;
  }

  /** A stranger without grants processes nobody's orders. */
  lemma StrangersProcessNothing(s: Chain, id: Pubkey, actor: Pubkey, owner: Pubkey, frames: seq<Frame>,
                                keys: seq<OrderKey>,
                                retire: bool)
    requires actor != owner
    ensures !Can(s, ProcessOrders(id, actor, owner, {}, frames, keys, retire))
  {
    if Can(s, ProcessOrders(id, actor, owner, {}, frames, keys, retire)) {
      BatchNeedsAuthority(s, id, actor, owner, {}, frames, keys, retire);
    }
  }

  /** At any point of any run an owner can cancel any of its own orders together, whatever became of
      them, with the frames their reservations return to. */
  lemma OwnerCanAlwaysProcess(states: seq<Chain>, actions: seq<Action>, n: nat, id: Pubkey, owner: Pubkey,
                              frames: seq<Frame>, keys: seq<OrderKey>)
    requires Run(states, actions) && Initial(states[0]) && n < |states| && id in states[n].books
    requires 0 < |keys| <= MAX_MAKERS && Distinct(keys)
    requires forall k | k in keys :: k in states[n].books[id].orders && k.owner == owner
    requires Distinct(frames) && |frames| <= COLLATERALS
    requires forall f | f in frames :: exists k | k in keys ::
               states[n].books[id].orders[k].terms.funding == 0
               && f == Frame(owner, states[n].books[id].orders[k].terms.Collateral())
    requires forall k | k in keys && states[n].books[id].orders[k].terms.funding == 0 ::
               Frame(owner, states[n].books[id].orders[k].terms.Collateral()) in frames
    ensures Can(states[n], ProcessOrders(id, owner, owner, {}, frames, keys, false))
  {
    hide Inv, Step, Initial, A.Hosted, Retirable, OrderTerms.Collateral;
    var s := states[n];
    RunKeepsInv(states, actions, n);
    A.RunKeepsHosted(states, actions, n);
    assert keys[0] in keys;
    OwnFrameLoads(s, id, keys[0]);
    forall f | f in frames
      ensures f.owner in s.books[id].wallets && f.collateral < COLLATERALS && f.collateral <= s.books[id].market.bases
              && f.owner == owner && KeyOf(s.books[id].market, f) in s.credits
    {
      var k :| k in keys && s.books[id].orders[k].terms.funding == 0
               && f == Frame(owner, s.books[id].orders[k].terms.Collateral());
      OwnFrameLoads(s, id, k);
      assert f in [Frame(k.owner, s.books[id].orders[k].terms.Collateral())];
    }
  }

  /** An owner can retire every order it has in a market that can never trade again, and anywhere else those
      whose nonce their salt binds and it has invalidated. */
  lemma OwnerCanRetire(s: Chain, id: Pubkey, owner: Pubkey, frames: seq<Frame>, keys: seq<OrderKey>)
    requires Can(s, ProcessOrders(id, owner, owner, {}, frames, keys, false))
    requires var m := s.books[id].market;
             || s.now >= m.terms.tradingCutoff || m.state == FROZEN || m.state == AWAITING || m.state == REDEEMABLE
             || m.state == ARCHIVED
             || forall k | k in keys ::
                  var t := s.books[id].orders[k].terms;
                  t.salt[..8] == NONCE_BOUND_SALT && LittleEndian(t.salt[8..16]) == t.nonce < s.traders[owner]
    ensures Can(s, ProcessOrders(id, owner, owner, {}, frames, keys, true))
  {
    hide FramesOk, Refundable, LittleEndian;
  }
}
