/** The planner's walk down its queue, the plan it assembles, and what a plan promises. */
module Matchmaking {
  import opened Exact
  import opened Rules
  import opened Conversion
  import opened State
  import opened Planner

  // ------------------------------------------------------------------ one maker

  /** Whether a maker can deliver an amount. An ask whose reservation no longer covers the live
      conversion cannot; one that a fill completes may return a surplus. */
  datatype Delivery = Unconvertible | Short | Delivers(refund: bool, known: bool)

  function DeliveryOf(input: Input, c: Candidate, amount: u64): Delivery {
    var base := c.order.terms.Collateral();
    if c.order.terms.side != 1 then Delivers(false, true) else
    if input.legs.None? || base !in input.legs.value || c.reserved.None? then Delivers(false, false) else
    var leg := input.legs.value[base];
    match BaseRaw(amount, leg.scale, leg.multiplier, false)
    case Err(_) => Unconvertible
    case Ok(raw) => if raw > c.reserved.value then Short
      else Delivers(amount == c.remaining && c.reserved.value > raw, true)
  }

  datatype Leg = Leg(candidate: Candidate, quantity: int, refund: bool)

  /** The plan so far: what is left of the order, what the makers cost, when they lapse. */
  datatype Walk = Walk(left: int, quote: int, deadline: int, legs: seq<Leg>, known: bool)

  function Least(a: int, b: int): int {
    if a < b then a else b
  }

  predicate Sized(queue: seq<Candidate>) {
    forall c | c in queue :: 0 < c.remaining <= U64_MAX
  }

  /** Whether the walk ends before the next maker: filled, or as many makers as one transaction
      carries and the rest is released. */
  predicate Ends(input: Input, w: Walk) {
    w.left == 0 || (|w.legs| == input.maxMakers && input.order.terms.tif == 1)
  }

  function Turn(input: Input, w: Walk, c: Candidate): Answer<Walk>
    requires 0 < c.remaining <= U64_MAX && 0 <= w.left
  {
    if Ends(input, w) then Answer(w) else
    if |w.legs| == input.maxMakers then Refused(TooManyMakers) else
    var amount := Least(w.left, c.remaining);
    match DeliveryOf(input, c, amount)
    case Unconvertible => Refused(ConversionFails)
    case Short => Answer(w)
    case Delivers(refund, known) =>
      match QuoteDown(amount, c.order.terms.price)
      case Err(_) => Refused(QuoteFails)
      case Ok(payment) =>
        if payment == 0 then Refused(RoundsToZero)
        else Answer(Walk(w.left - amount, w.quote + payment, Least(c.order.terms.expiry, w.deadline),
                         w.legs + [Leg(c, amount, refund)], w.known && known))
  }

  function Start(input: Input): Walk {
    Walk(input.order.terms.quantity, 0, Least(input.now + PLAN_SECONDS, input.order.terms.expiry), [], true)
  }

  /** The plan after the first n makers of the queue. */
  function Walked(input: Input, queue: seq<Candidate>, n: nat): (w: Answer<Walk>)
    requires n <= |queue| && Sized(queue)
    ensures w.Answer? ==> 0 <= w.value.left
  {
    if n == 0 then Answer(Start(input)) else
    match Walked(input, queue, n - 1)
    case Refused(why) => Refused(why)
    case Answer(w) => Turn(input, w, queue[n - 1])
  }

  function Makers(legs: seq<Leg>): (makers: seq<Wire>)
    ensures |makers| == |legs| && forall i | 0 <= i < |legs| :: makers[i] == legs[i].candidate.order
  {
    seq(|legs|, i requires 0 <= i < |legs| => legs[i].candidate.order)
  }

  function Quantities(legs: seq<Leg>): (qs: seq<int>)
    ensures |qs| == |legs| && forall i | 0 <= i < |legs| :: qs[i] == legs[i].quantity
  {
    seq(|legs|, i requires 0 <= i < |legs| => legs[i].quantity)
  }

  function Remainders(legs: seq<Leg>): (rs: seq<int>)
    ensures |rs| == |legs| && forall i | 0 <= i < |legs| :: rs[i] == legs[i].candidate.remaining
  {
    seq(|legs|, i requires 0 <= i < |legs| => legs[i].candidate.remaining)
  }

  function Surpluses(legs: seq<Leg>): (ss: seq<bool>)
    ensures |ss| == |legs| && forall i | 0 <= i < |legs| :: ss[i] == legs[i].refund
  {
    seq(|legs|, i requires 0 <= i < |legs| => legs[i].refund)
  }

  function Assembled(input: Input, w: Walk): AtomicPlan {
    AtomicPlan(input.nextSequence, input.makerBps, input.takerBps, Makers(w.legs), Quantities(w.legs),
               Remainders(w.legs),
               if input.order.terms.tif == 1 && w.legs != [] then input.step else 0,
               w.deadline, input.order.terms.quantity - w.left, w.left, w.quote,
               if w.known then Some(Surpluses(w.legs)) else None)
  }

  function PlanOf(input: Input, queue: seq<Candidate>): Answer<AtomicPlan>
    requires Sized(queue)
  {
    match Walked(input, queue, |queue|)
    case Refused(why) => Refused(why)
    case Answer(w) =>
      if w.legs != [] && input.order.terms.maxFeeBps < input.takerBps then Refused(FeeCapTooLow)
         else Answer(Assembled(input, w))
  }

  // ---------------------------------------------------------------- the planner

  lemma {:induction false} EndStays(input: Input, queue: seq<Candidate>, i: nat, n: nat)
    requires i <= n <= |queue| && Sized(queue)
    requires Walked(input, queue, i).Answer? && Ends(input, Walked(input, queue, i).value)
    ensures Walked(input, queue, n) == Walked(input, queue, i)
  {
    if i < n {
      EndStays(input, queue, i, n - 1);
      assert queue[n - 1] in queue;
    }
  }

  lemma {:induction false} RefusalStays(input: Input, queue: seq<Candidate>, i: nat, n: nat)
    requires i <= n <= |queue| && Sized(queue) && Walked(input, queue, i).Refused?
    ensures Walked(input, queue, n) == Walked(input, queue, i)
  {
    hide Turn;
    if i < n {
      RefusalStays(input, queue, i, n - 1);
    }
  }

  lemma QueueIsSized(input: Input, queue: seq<Candidate>)
    requires input.step > 0 && AllReported(input) && Queue(input, queue)
    ensures Sized(queue)
    ensures forall c | c in queue :: Reported(input, c) && Eligible(input, c)
  {
    hide Eligible, Parses;
    forall c | c in queue
      ensures Reported(input, c) && Eligible(input, c)
    {
      QueueHolds(input, queue, c);
    }
  }

  lemma OneMore(legs: seq<Leg>, leg: Leg)
    ensures Makers(legs + [leg]) == Makers(legs) + [leg.candidate.order]
            && Quantities(legs + [leg]) == Quantities(legs) + [leg.quantity]
    ensures Remainders(legs + [leg]) == Remainders(legs) + [leg.candidate.remaining]
    ensures Surpluses(legs + [leg]) == Surpluses(legs) + [leg.refund]
  {
  }

  lemma NoLegs()
    ensures Makers([]) == [] && Quantities([]) == [] && Remainders([]) == [] && Surpluses([]) == []
  {
  }

  /** Walks the queue, taking each maker that can deliver, until the order is filled. */
  method TakeMakers(input: Input, queue: seq<Candidate>) returns (r: Answer<AtomicPlan>)
    requires Sized(queue)
    ensures r == PlanOf(input, queue)
  {
    hide QuoteDown, DeliveryOf, Start, Makers, Quantities, Remainders, Surpluses;
    var left: int, execution: int := input.order.terms.quantity, 0;
    var deadline: int := Least(input.now + PLAN_SECONDS, input.order.terms.expiry);
    var makers: seq<Wire>, quantities: seq<int>, expected: seq<int>, surplus: seq<bool> := [], [], [], [];
    var known := true;
    ghost var legs: seq<Leg> := [];
    assert Walked(input, queue, 0) == Answer(Walk(left, execution, deadline, legs, known)) by { StartsWith(input); }
    NoLegs();
    var i := 0;
    while i < |queue|
      invariant 0 <= i <= |queue| && 0 <= left
      invariant Walked(input, queue, i) == Answer(Walk(left, execution, deadline, legs, known))
      invariant makers == Makers(legs) && quantities == Quantities(legs) && expected == Remainders(legs)
                && surplus == Surpluses(legs)
    {
      var c := queue[i];
      assert c in queue;
      assert Walked(input, queue, i + 1) == Turn(input, Walk(left, execution, deadline, legs, known), c);
      if left == 0 { EndStays(input, queue, i, |queue|); break; }
      if |makers| == input.maxMakers {
        if input.order.terms.tif == 1 { EndStays(input, queue, i, |queue|); break; }
        RefusalStays(input, queue, i + 1, |queue|);
        return Refused(TooManyMakers);
      }
      var amount := Least(left, c.remaining);
      var delivery := DeliveryOf(input, c, amount);
      if delivery.Unconvertible? {
        RefusalStays(input, queue, i + 1, |queue|);
        return Refused(ConversionFails);
      }
      if delivery.Delivers? {
        known := known && delivery.known;
        var payment := QuoteDown(amount, c.order.terms.price);
        if payment.Err? {
          RefusalStays(input, queue, i + 1, |queue|);
          return Refused(QuoteFails);
        }
        if payment.value == 0 {
          RefusalStays(input, queue, i + 1, |queue|);
          return Refused(RoundsToZero);
        }
        OneMore(legs, Leg(c, amount, delivery.refund));
        legs := legs + [Leg(c, amount, delivery.refund)];
        makers, surplus := makers + [c.order], surplus + [delivery.refund];
        quantities, expected := quantities + [amount], expected + [c.remaining];
        left, execution := left - amount, execution + payment.value;
        if c.order.terms.expiry < deadline { deadline := c.order.terms.expiry; }
      }
      i := i + 1;
    }
    if makers != [] && input.order.terms.maxFeeBps < input.takerBps { return Refused(FeeCapTooLow); }
    r := Answer(AtomicPlan(input.nextSequence, input.makerBps, input.takerBps, makers, quantities, expected,
                           if input.order.terms.tif == 1 && makers != [] then input.step else 0,
                           deadline, input.order.terms.quantity - left, left, execution,
                           if known then Some(surplus) else None));
  }

  lemma StartsWith(input: Input)
    ensures Start(input) == Walk(input.order.terms.quantity, 0,
                                 Least(input.now + PLAN_SECONDS, input.order.terms.expiry), [], true)
  {
  }

  /** A plan exactly when the order and its book are in order and the walk down the one queue of
      price-time priority is not refused; then it is that walk's. */
  method PlanOrder(input: Input) returns (r: Answer<AtomicPlan>, ghost queue: seq<Candidate>)
    ensures Entry(input).Answer? ==> input.step > 0
    ensures Entry(input).Answer? && AllReported(input) ==>
            Queue(input, queue) && Sized(queue) && r == PlanOf(input, queue)
    ensures r.Answer? ==> Entry(input).Answer? && AllReported(input)
  {
    hide AllReported, PlanOf, Queue, Parses;
    queue := [];
    var entry := Entry(input);
    if entry.Refused? { return Refused(entry.why), []; }
    var queued := Enqueue(input);
    if queued.Refused? { return Refused(queued.why), []; }
    QueueIsSized(input, queued.value);
    queue := queued.value;
    r := TakeMakers(input, queued.value);
  }
}
