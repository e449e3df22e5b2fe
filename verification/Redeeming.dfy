/** The client's redemption plan: merge complete sets, redeem what pays whole units, keep the odd
    claim. The program accepts and pays it in full. */
module Redeeming {
  import opened Exact
  import opened Rules
  import opened State
  import opened Settlement
  import opened InFlight
  import opened Matching
  import opened Chain
  import opened Exchange
  import opened Positions

  datatype RedemptionPlan = RedemptionPlan(merge: nat, redeemYes: nat, redeemNo: nat, retainedYes: nat, retainedNo: nat,
                                           credit: nat, burnYes: nat, burnNo: nat)

  /** A plan that uses every claim once and loses nothing but what cannot be paid in whole units. */
  predicate Sound(p: RedemptionPlan, yes: nat, no: nat, payouts: (nat, nat))
    requires ValidPayout(payouts.0, payouts.1)
  {
    && p.merge + p.redeemYes + p.retainedYes == yes && p.merge + p.redeemNo + p.retainedNo == no
    && p.burnYes == yes - p.retainedYes && p.burnNo == no - p.retainedNo
    && (p.merge == yes || p.merge == no)
    && Denominator(payouts.0, payouts.1) * (p.credit - p.merge)
       == Weighted(p.redeemYes, p.redeemNo, payouts.0, payouts.1)
    && p.credit == Weighted(yes, no, payouts.0, payouts.1) / Denominator(payouts.0, payouts.1)
    && p.retainedYes + p.retainedNo <= 1
    && (Denominator(payouts.0, payouts.1) == 1 ==> p.retainedYes + p.retainedNo == 0)
  }

  method PlanRedemption(yes: u64, no: u64, payouts: (nat, nat)) returns (r: Rules.Result<RedemptionPlan>)
    ensures r.Ok? <==> ValidPayout(payouts.0, payouts.1)
    ensures r.Ok? ==> Sound(r.value, yes, no, payouts)
  {
    if !ValidPayout(payouts.0, payouts.1) { return Err(Error.InvalidTerms); }
    var denominator := payouts.0 + payouts.1;
    var merge := if yes < no then yes else no;
    var redeemYes, redeemNo := yes - merge, no - merge;
    var retainedYes, retainedNo := 0, 0;
    if denominator == 2 {
      retainedYes, retainedNo := redeemYes % 2, redeemNo % 2;
      redeemYes, redeemNo := redeemYes - retainedYes, redeemNo - retainedNo;
    }
    var paid := Redemption(redeemYes, redeemNo, payouts.0, payouts.1);
    assert paid.Ok?;
    r := Ok(RedemptionPlan(merge, redeemYes, redeemNo, retainedYes, retainedNo, merge + paid.value, yes - retainedYes,
                           no - retainedNo));
  }

  // ------------------------------------------------------------- carrying it out

  /** The deployment after the plan's merge, if it has one. */
  function Merged(s: Chain, id: Pubkey, owner: Pubkey, c: nat, p: RedemptionPlan): Chain
    requires Positioned(s, id, owner, c)
  {
    if p.merge == 0 then s
    else Repositioned(s, id, owner, c, -(p.merge as int), -(p.merge as int), -(p.merge as int))
  }

  /** And after its redemption, if it has one. */
  function Redeemed(s: Chain, id: Pubkey, owner: Pubkey, c: nat, p: RedemptionPlan): Chain
    requires Positioned(s, id, owner, c)
  {
    if p.redeemYes == 0 && p.redeemNo == 0 then s
    else Repositioned(s, id, owner, c, -(p.redeemYes as int), -(p.redeemNo as int), -(p.credit - p.merge))
  }

  lemma RepositionedHolds(s: Chain, id: Pubkey, owner: Pubkey, c: nat, yes: int, no: int, backing: int)
    requires Positioned(s, id, owner, c)
    ensures var r := Repositioned(s, id, owner, c, yes, no, backing);
            var key := CreditKey(s.books[id].market.mints[c], owner);
            && Positioned(r, id, owner, c) && r.books[id].market == s.books[id].market
            && r.books[id].wallets[owner].balances[Claim(c, 0)]
               == s.books[id].wallets[owner].balances[Claim(c, 0)] + yes
            && r.books[id].wallets[owner].balances[Claim(c, 1)] == s.books[id].wallets[owner].balances[Claim(c, 1)] + no
            && r.credits[key] == s.credits[key] - backing
  {
    hide Position, Market.Ready;
    PositionBalances(s.books[id], owner, c, yes, no, backing);
  }

  lemma PlannedPayment(m: Market, yes: u64, no: u64, p: RedemptionPlan)
    requires m.Payouts().Some? && ValidPayout(m.payouts.0, m.payouts.1) && Sound(p, yes, no, m.payouts)
    ensures p.merge <= yes && p.merge <= no && p.redeemYes <= yes - p.merge && p.redeemNo <= no - p.merge
            && p.credit >= p.merge
    ensures Payment(m, p.redeemYes, p.redeemNo) == Ok(p.credit - p.merge)
    ensures m.payouts == (1, 0) || m.payouts == (0, 1) || m.payouts == (1, 1)
  {
    var paid := Redemption(p.redeemYes, p.redeemNo, m.payouts.0, m.payouts.1);
    assert paid.Ok?;
  }

  /** A sound deployment whose owner presents a position in a market with a known outcome. */
  ghost predicate Redeemable(s: Chain, id: Pubkey, owner: Pubkey, c: nat) {
    && Inv(s) && Positioned(s, id, owner, c) && s.books[id].market.Payouts().Some?
    && ValidPayout(s.books[id].market.payouts.0, s.books[id].market.payouts.1)
  }

  /** The plan's merge is accepted, and what it leaves can be redeemed as planned. */
  lemma MergeThenRedeem(s: Chain, id: Pubkey, owner: Pubkey, c: nat, yes: u64, no: u64, p: RedemptionPlan)
    requires Redeemable(s, id, owner, c) && Holds(s.books[id], owner, c, yes, no)
             && Sound(p, yes, no, s.books[id].market.payouts)
    ensures p.merge > 0 ==> CanMerge(s, id, owner, c, p.merge)
    ensures var m := Merged(s, id, owner, c, p);
            && Redeemable(m, id, owner, c) && m.books[id].market == s.books[id].market
            && (p.redeemYes > 0 || p.redeemNo > 0 ==> CanRedeem(m, id, owner, c, p.redeemYes, p.redeemNo))
    ensures Payment(s.books[id].market, p.redeemYes, p.redeemNo) == Ok(p.credit - p.merge)
  {
    hide Inv, Market.Ready, Repositioned, Sound, Payment;
    PlannedPayment(s.books[id].market, yes, no, p);
    if p.merge > 0 {
      MergeKeepsInv(s, id, owner, c, p.merge);
      RepositionedHolds(s, id, owner, c, -(p.merge as int), -(p.merge as int), -(p.merge as int));
    }
  }

  /** The owner's credit grew by the plan's and its wallet keeps what the plan retains. */
  ghost predicate PaidOut(s: Chain, r: Chain, id: Pubkey, owner: Pubkey, c: nat, credit: int, burnYes: int, burnNo: int)
    requires Positioned(s, id, owner, c)
  {
    var key := CreditKey(s.books[id].market.mints[c], owner);
    && Positioned(r, id, owner, c) && r.books[id].market == s.books[id].market
    && r.credits[key] == s.credits[key] + credit
    && r.books[id].wallets[owner].balances[Claim(c, 0)] == s.books[id].wallets[owner].balances[Claim(c, 0)] - burnYes
    && r.books[id].wallets[owner].balances[Claim(c, 1)] == s.books[id].wallets[owner].balances[Claim(c, 1)] - burnNo
  }

  lemma MergePays(s: Chain, id: Pubkey, owner: Pubkey, c: nat, p: RedemptionPlan)
    requires Positioned(s, id, owner, c)
    ensures var m := Merged(s, id, owner, c, p); PaidOut(s, m, id, owner, c, p.merge, p.merge, p.merge)
  {
    hide Market.Ready, Repositioned;
    if p.merge > 0 {
      RepositionedHolds(s, id, owner, c, -(p.merge as int), -(p.merge as int), -(p.merge as int));
    }
  }

  lemma RedemptionPays(s: Chain, id: Pubkey, owner: Pubkey, c: nat, p: RedemptionPlan)
    requires Positioned(s, id, owner, c) && (p.redeemYes == 0 && p.redeemNo == 0 ==> p.credit == p.merge)
    ensures PaidOut(s, Redeemed(s, id, owner, c, p), id, owner, c, p.credit - p.merge, p.redeemYes, p.redeemNo)
  {
    hide Market.Ready, Repositioned;
    if p.redeemYes > 0 || p.redeemNo > 0 {
      RepositionedHolds(s, id, owner, c, -(p.redeemYes as int), -(p.redeemNo as int), -(p.credit - p.merge));
    }
  }

  lemma PaidTwice(s: Chain, m: Chain, r: Chain, id: Pubkey, owner: Pubkey, c: nat, credit: int, yes: int, no: int,
                  more: int, moreYes: int, moreNo: int)
    requires Positioned(s, id, owner, c) && Positioned(m, id, owner, c)
    requires PaidOut(s, m, id, owner, c, credit, yes, no) && PaidOut(m, r, id, owner, c, more, moreYes, moreNo)
    ensures PaidOut(s, r, id, owner, c, credit + more, yes + moreYes, no + moreNo)
  {
    hide Market.Ready;
  }

  lemma RedemptionIsSound(m: Chain, id: Pubkey, owner: Pubkey, c: nat, yes: u64, no: u64, paid: nat)
    requires Inv(m) && CanRedeem(m, id, owner, c, yes, no) && Payment(m.books[id].market, yes, no) == Ok(paid)
    ensures Inv(Repositioned(m, id, owner, c, -(yes as int), -(no as int), -(paid as int)))
  {
    hide Inv, Market.Ready, Repositioned, Payment, CanRedeem;
    RedeemKeepsInv(m, id, owner, c, yes, no);
  }

  /** Carried out in any sound deployment, the plan pays exactly its credit - the whole value of the
      claims, rounded down to a unit once - and leaves at most the one odd claim. */
  lemma PlanPays(s: Chain, id: Pubkey, owner: Pubkey, c: nat, yes: u64, no: u64, p: RedemptionPlan)
    requires Redeemable(s, id, owner, c) && Holds(s.books[id], owner, c, yes, no)
             && Sound(p, yes, no, s.books[id].market.payouts)
    ensures var m := Merged(s, id, owner, c, p);
            && Positioned(m, id, owner, c)
            && var r := Redeemed(m, id, owner, c, p);
            Inv(r) && PaidOut(s, r, id, owner, c, p.credit, p.burnYes, p.burnNo)
  {
    hide Inv, Market.Ready, CanMerge, CanRedeem, Payment, Merged, PaidOut, Redemption, Weighted, Repositioned;
    PlannedPayment(s.books[id].market, yes, no, p);
    MergeThenRedeem(s, id, owner, c, yes, no, p);
    MergePays(s, id, owner, c, p);
    var m := Merged(s, id, owner, c, p);
    NothingRedeemed(m.books[id].market, p);
    RedemptionPays(m, id, owner, c, p);
    if p.redeemYes > 0 || p.redeemNo > 0 {
      RedemptionIsSound(m, id, owner, c, p.redeemYes, p.redeemNo, p.credit - p.merge);
    }
    PaidTwice(s, m, Redeemed(m, id, owner, c, p), id, owner, c, p.merge, p.merge, p.merge,
              p.credit - p.merge, p.redeemYes, p.redeemNo);
  }

  lemma NothingRedeemed(m: Market, p: RedemptionPlan)
    requires p.redeemYes <= U64_MAX && p.redeemNo <= U64_MAX
             && Payment(m, p.redeemYes, p.redeemNo) == Ok(p.credit - p.merge)
    ensures p.redeemYes == 0 && p.redeemNo == 0 ==> p.credit == p.merge
  {
  }
}
