/** The placement instruction a client builds from a plan: which accounts it presents. */
module Instruction {
  import opened Exact
  import opened Rules
  import opened Conversion
  import opened State
  import opened InFlight
  import opened Planner
  import opened Matchmaking
  import opened Priority
  import M = Matching

  // ------------------------------------------------------- what has to be presented

  function Key(w: Wire): OrderKey {
    OrderKey(w.owner, w.terms.salt)
  }

  /** Whether filling the i-th maker returns something to it: a bid's price improvement, the surplus
      of an ask it completes. */
  predicate Returns(p: AtomicPlan, i: nat)
    requires i < |p.makers| == |p.quantities| == |p.expectedRemaining|
    requires 0 <= p.quantities[i] <= p.expectedRemaining[i]
    requires p.surplus.Some? ==> |p.surplus.value| == |p.makers|
  {
    var t, q, left := p.makers[i].terms, p.quantities[i], p.expectedRemaining[i];
    if t.side == 0 then Ceil(left, t.price) - Ceil(left - q, t.price) > Floor(q, t.price)
    else q == left && (p.surplus.Some? ==> p.surplus.value[i])
  }

  /** The accounts of a placement: the taker's and the planned makers', every leg an ask delivers, and
      the credit frames of those that may be paid from or to a pool. */
  ghost predicate Presents(r: M.Request, order: Wire, p: AtomicPlan)
    requires Reads(p, order)
  {
    && r.owner == order.owner && r.terms == order.terms
    && r.plan == M.Plan(p.deadline, p.nextSequence, p.minFill, p.makerBps, p.takerBps, r.plan.legs)
    && r.plan.legs == p.quantities
    && |r.makers| == |p.makers| && (forall i | 0 <= i < |p.makers| :: r.makers[i] == Key(p.makers[i]))
    && r.touched == Touched(order, p.makers, |p.makers|)
    && Distinct(r.participants) && (forall o :: o in r.participants <==> Takes(order, p.makers, |p.makers|, o))
    && Distinct(r.frames) && (forall f :: f in r.frames <==> Framed(order, p, |p.makers|, f))
  }

  function Touched(order: Wire, makers: seq<Wire>, n: nat): set<nat>
    requires n <= |makers|
  {
    if order.terms.side == 1 then {order.terms.Collateral()}
    else set i | 0 <= i < n :: makers[i].terms.Collateral()
  }

  predicate Takes(order: Wire, makers: seq<Wire>, n: nat, o: Pubkey)
    requires n <= |makers|
  {
    || o == order.owner || o == order.terms.recipient
    || exists i | 0 <= i < n :: o == makers[i].owner || o == makers[i].terms.recipient
  }

  predicate Framed(order: Wire, p: AtomicPlan, n: nat, f: Frame)
    requires Reads(p, order) && n <= |p.makers|
  {
    || (order.terms.funding == 0 && f == Frame(order.owner, order.terms.Collateral()))
    || exists i | 0 <= i < n ::
         assert LegReads(p, order, i);
         && p.makers[i].terms.funding == 0 && f == Frame(p.makers[i].owner, p.makers[i].terms.Collateral())
         && Returns(p, i)
  }

  // --------------------------------------------------------------------- building

  /** Every owner and recipient once. */
  method ListParticipants(order: Wire, makers: seq<Wire>) returns (participants: seq<Pubkey>)
    ensures Distinct(participants) && forall o :: o in participants <==> Takes(order, makers, |makers|, o)
  {
    var owners := {order.owner, order.terms.recipient};
    for i := 0 to |makers|
      invariant forall o :: o in owners <==> Takes(order, makers, i, o)
    {
      owners := owners + {makers[i].owner, makers[i].terms.recipient};
    }
    participants := [];
    while owners != {}
      invariant Distinct(participants) && forall o | o in participants :: o !in owners
      invariant forall o :: o in owners || o in participants <==> Takes(order, makers, |makers|, o)
      decreases owners
    {
      var o :| o in owners;
      participants, owners := participants + [o], owners - {o};
    }
  }

  /** Adds a credit account to the frames once. */
  method AddFrame(frames: seq<Frame>, f: Frame) returns (after: seq<Frame>)
    requires Distinct(frames)
    ensures Distinct(after) && forall g :: g in after <==> g in frames || g == f
  {
    after := if f in frames then frames else frames + [f];
  }

  /** What the makers' bids reserve can be quoted at all. */
  predicate Quotable(p: AtomicPlan)
    requires |p.makers| == |p.expectedRemaining|
  {
    forall i | 0 <= i < |p.makers| && p.makers[i].terms.side == 0 ::
      p.expectedRemaining[i] >= 0 && Ceil(p.expectedRemaining[i], p.makers[i].terms.price) <= U64_MAX
  }

  lemma CeilGrows(less: nat, more: nat, price: nat)
    requires less <= more
    ensures Ceil(less, price) <= Ceil(more, price)
  {
    MulMono(less, more, price);
    CeilMono(less * price, more * price, WAD);
  }

  /** Whether a maker is returned something, as the client works it out: none, if a quote overflows. */
  method Returned(order: Wire, p: AtomicPlan, i: nat) returns (r: Rules.Option<bool>)
    requires Reads(p, order) && i < |p.makers| && LegReads(p, order, i)
    ensures r.Some? <==> p.makers[i].terms.side != 0 || Ceil(p.expectedRemaining[i], p.makers[i].terms.price) <= U64_MAX
    ensures r.Some? ==> r.value == Returns(p, i)
  {
    hide Floor, Ceil, Parses, OrderTerms.Collateral, OrderTerms.Accepts, LegsRead;
    var t, q, left := p.makers[i].terms, p.quantities[i], p.expectedRemaining[i];
    if t.side == 0 {
      CeilGrows(left - q, left, t.price);
      var before, after, payment := QuoteUp(left, t.price), QuoteUp(left - q, t.price), QuoteDown(q, t.price);
      if before.Err? || after.Err? || payment.Err? { return None; }
      return Some(before.value - after.value > payment.value);
    }
    r := Some(q == left && (if p.surplus.Some? then p.surplus.value[i] else true));
  }

  /** The credit frames: the taker's if a pool funds it, and each pool-funded maker's that is returned
      something. */
  method ListFrames(order: Wire, p: AtomicPlan) returns (frames: Answer<seq<Frame>>)
    requires Reads(p, order)
    ensures frames.Answer? <==> Quotable(p)
    ensures frames.Answer? ==> Distinct(frames.value) && forall f ::
            f in frames.value <==> Framed(order, p, |p.makers|, f)
  {
    hide Returns, Ceil, LegReads, OrderTerms.Collateral;
    var list: seq<Frame> := [];
    if order.terms.funding == 0 { list := AddFrame(list, Frame(order.owner, order.terms.Collateral())); }
    for i := 0 to |p.makers|
      invariant Distinct(list) && forall f :: f in list <==> Framed(order, p, i, f)
      invariant forall j | 0 <= j < i && p.makers[j].terms.side == 0 ::
                  p.expectedRemaining[j] >= 0 && Ceil(p.expectedRemaining[j], p.makers[j].terms.price) <= U64_MAX
    {
      assert LegReads(p, order, i);
      LegShape(p, order, i);
      var returned := Returned(order, p, i);
      if returned.None? { return Refused(QuoteFails); }
      if p.makers[i].terms.funding == 0 && returned.value {
        list := AddFrame(list, Frame(p.makers[i].owner, p.makers[i].terms.Collateral()));
      }
    }
    frames := Answer(list);
  }

  lemma LegShape(p: AtomicPlan, order: Wire, i: nat)
    requires i < |p.makers| == |p.quantities| == |p.expectedRemaining| && LegReads(p, order, i)
    ensures 0 < p.quantities[i] <= p.expectedRemaining[i] <= U64_MAX && p.quantities[i] <= U64_MAX
  {
  }

  method ListTouched(order: Wire, makers: seq<Wire>) returns (touched: set<nat>)
    ensures touched == Touched(order, makers, |makers|)
  {
    hide OrderTerms.Collateral;
    touched := {};
    if order.terms.side == 1 {
      touched := {order.terms.Collateral()};
    } else {
      for i := 0 to |makers|
        invariant touched == Touched(order, makers, i)
      {
        touched := touched + {makers[i].terms.Collateral()};
      }
    }
  }

  /** Builds the instruction of a plan that reads well. */
  method BuildPlacement(order: Wire, p: AtomicPlan, live: M.Live, lapsed: set<OrderKey>) returns (o: Answer<M.Request>)
    ensures o.Answer? <==> Reads(p, order) && Quotable(p)
    ensures o.Answer? ==> Presents(o.value, order, p) && o.value.live == live && o.value.lapsed == lapsed
  {
    hide LegReads, OrderTerms.Collateral, Quotable, Takes, Touched;
    var ok := ParsePlan(p, order);
    if !ok { return Refused(UnreadableOrder); }
    var frames := ListFrames(order, p);
    if frames.Refused? { return Refused(frames.why); }
    var participants := ListParticipants(order, p.makers);
    var touched := ListTouched(order, p.makers);
    forall i | 0 <= i < |p.quantities|
      ensures 0 <= p.quantities[i] <= U64_MAX
    {
      LegShape(p, order, i);
    }
    var legs: seq<u64> := seq(|p.quantities|, i requires 0 <= i < |p.quantities| => p.quantities[i]);
    assert legs == p.quantities;
    o := Answer(M.Request(order.owner, order.terms,
                          M.Plan(p.deadline, p.nextSequence, p.minFill, p.makerBps, p.takerBps, legs),
                          seq(|p.makers|, i requires 0 <= i < |p.makers| => Key(p.makers[i])), participants,
                            frames.value,
                          touched, live, lapsed));
  }
}
