/** What the planner's plans promise: totals that add up, price-time priority, nothing crossed by
    what is left to rest, and acceptance by the check made before signing. */
module Priority {
  import opened Exact
  import opened Rules
  import opened Conversion
  import opened State
  import opened Planner
  import opened Matchmaking

  // ------------------------------------------------------------------- totals

  function Filled(legs: seq<Leg>): int {
    if legs == [] then 0 else Filled(legs[..|legs| - 1]) + legs[|legs| - 1].quantity
  }

  function Cost(legs: seq<Leg>): int
    requires forall l | l in legs :: l.quantity >= 0
  {
    if legs == [] then 0
    else Cost(legs[..|legs| - 1]) + Floor(legs[|legs| - 1].quantity, legs[|legs| - 1].candidate.order.terms.price)
  }

  lemma OneMoreFilled(legs: seq<Leg>, l: Leg)
    ensures Filled(legs + [l]) == Filled(legs) + l.quantity
  {
    assert (legs + [l])[..|legs|] == legs;
  }

  lemma OneMoreCost(legs: seq<Leg>, l: Leg)
    requires l.quantity >= 0 && forall k | k in legs :: k.quantity >= 0
    ensures Cost(legs + [l]) == Cost(legs) + Floor(l.quantity, l.candidate.order.terms.price)
  {
    assert (legs + [l])[..|legs|] == legs;
  }

  /** A leg of a plan: whole steps its maker has, worth something, delivered if its reservation is known. */
  predicate LegOk(input: Input, l: Leg)
    requires input.step > 0
  {
    && 0 < l.quantity <= l.candidate.remaining <= U64_MAX && l.quantity % input.step == 0
    && 0 < Floor(l.quantity, l.candidate.order.terms.price) <= U64_MAX
    && DeliveryOf(input, l.candidate, l.quantity).Delivers?
    && l.refund == DeliveryOf(input, l.candidate, l.quantity).refund
  }

  predicate Lapses(input: Input, w: Walk) {
    && w.deadline <= input.now + PLAN_SECONDS && w.deadline <= input.order.terms.expiry
    && (forall l | l in w.legs :: w.deadline <= l.candidate.order.terms.expiry)
    && (w.deadline == input.now + PLAN_SECONDS || w.deadline == input.order.terms.expiry
        || exists l | l in w.legs :: w.deadline == l.candidate.order.terms.expiry)
  }

  predicate LegsRanked(side: nat, legs: seq<Leg>) {
    forall i, j | 0 <= i < j < |legs| :: Ahead(side, legs[i].candidate, legs[j].candidate)
  }

  predicate Kept(input: Input, legs: seq<Leg>, known: bool) {
    known ==> forall l | l in legs ::
        0 <= l.quantity <= U64_MAX && DeliveryOf(input, l.candidate, l.quantity) == Delivers(l.refund, true)
  }

  /** What holds at every step of the walk. */
  predicate Walking(input: Input, seen: seq<Candidate>, w: Walk)
    requires input.step > 0
  {
    && 0 <= w.left && w.left % input.step == 0 && |w.legs| <= input.maxMakers
    && (forall l | l in w.legs :: l.candidate in seen && LegOk(input, l))
    && w.left + Filled(w.legs) == input.order.terms.quantity && w.quote == Cost(w.legs)
    && LegsRanked(input.order.terms.side, w.legs) && Lapses(input, w) && Kept(input, w.legs, w.known)
  }

  lemma TakesLeg(input: Input, seen: seq<Candidate>, w: Walk, c: Candidate)
    requires input.step > 0 && Walking(input, seen, w) && |w.legs| < input.maxMakers && w.left > 0
    requires 0 < c.remaining <= U64_MAX && c.remaining % input.step == 0
    requires forall q | q in seen :: Ahead(input.order.terms.side, q, c)
    requires var amount := Least(w.left, c.remaining);
             DeliveryOf(input, c, amount).Delivers? && 0 < Floor(amount, c.order.terms.price) <= U64_MAX
    ensures var amount := Least(w.left, c.remaining);
            var d := DeliveryOf(input, c, amount);
            Walking(input, seen + [c], Walk(w.left - amount, w.quote + Floor(amount, c.order.terms.price),
                                            Least(c.order.terms.expiry, w.deadline),
                                              w.legs + [Leg(c, amount, d.refund)],
                                            w.known && d.known))
  {
    hide Floor, Ahead, DeliveryOf, Cost, Filled;
    var amount := Least(w.left, c.remaining);
    var d := DeliveryOf(input, c, amount);
    var l := Leg(c, amount, d.refund);
    OneMoreFilled(w.legs, l);
    OneMoreCost(w.legs, l);
    assert (w.left - amount) % input.step == 0 by { WholeSteps(w.left, c.remaining, input.step); }
    assert LegOk(input, l);
    var legs := w.legs + [l];
    assert LegsRanked(input.order.terms.side, legs) by {
      forall i, j | 0 <= i < j < |legs|
        ensures Ahead(input.order.terms.side, legs[i].candidate, legs[j].candidate)
      {
        assert w.legs[i] in w.legs;
      }
    }
    assert l in legs;
    assert Lapses(input, Walk(w.left - amount, w.quote, Least(c.order.terms.expiry, w.deadline), legs, w.known)) by {
      LapsesSooner(input, w, l);
    }
  }

  lemma LapsesSooner(input: Input, w: Walk, l: Leg)
    requires Lapses(input, w)
    ensures Lapses(input, w.(deadline := Least(l.candidate.order.terms.expiry, w.deadline), legs := w.legs + [l]))
  {
    var r := w.(deadline := Least(l.candidate.order.terms.expiry, w.deadline), legs := w.legs + [l]);
    assert l in r.legs;
    forall k | k in w.legs
      ensures k in r.legs
    {
    }
  }

  lemma WholeSteps(left: int, remaining: int, step: int)
    requires step > 0 && 0 <= left && 0 <= remaining && left % step == 0 && remaining % step == 0
    ensures (left - Least(left, remaining)) % step == 0 && Least(left, remaining) % step == 0
  {
    if remaining <= left {
      MultiplesSubtract(left, remaining, step);
    }
  }

  ghost predicate Planning(input: Input, queue: seq<Candidate>) {
    && Entry(input).Answer? && input.step > 0 && Sized(queue) && Ranked(input.order.terms.side, queue)
    && forall c | c in queue :: Reported(input, c)
  }

  lemma StartsSound(input: Input)
    requires Entry(input).Answer? && input.step > 0
    ensures Walking(input, [], Start(input))
  {
    hide Parses;
  }

  lemma NextIsSound(input: Input, seen: seq<Candidate>, w: Walk, c: Candidate)
    requires input.step > 0 && Walking(input, seen, w) && Reported(input, c) && c.remaining <= U64_MAX
    requires forall q | q in seen :: Ahead(input.order.terms.side, q, c)
    requires Turn(input, w, c).Answer?
    ensures Walking(input, seen + [c], Turn(input, w, c).value)
  {
    hide Floor, DeliveryOf, Parses, Ahead, LegOk, LegsRanked, Lapses, Kept, Filled, Cost;
    if Turn(input, w, c).value == w {
      StillWalking(input, seen, c, w);
    } else {
      TakesLeg(input, seen, w, c);
    }
  }

  lemma {:induction false} WalkIsSound(input: Input, queue: seq<Candidate>, n: nat)
    requires Planning(input, queue) && n <= |queue| && Walked(input, queue, n).Answer?
    ensures Walking(input, queue[..n], Walked(input, queue, n).value)
  {
    hide Walking, Turn, Reported, Ahead;
    if n == 0 {
      StartsSound(input);
    } else {
      WalkIsSound(input, queue, n - 1);
      assert queue[..n] == queue[..n - 1] + [queue[n - 1]] && queue[n - 1] in queue;
      NextIsSound(input, queue[..n - 1], Walked(input, queue, n - 1).value, queue[n - 1]);
    }
  }

  lemma StillWalking(input: Input, seen: seq<Candidate>, c: Candidate, w: Walk)
    requires input.step > 0 && Walking(input, seen, w)
    ensures Walking(input, seen + [c], w)
  {
    hide LegOk, LegsRanked, Lapses, Kept, Filled, Cost;
  }

  // -------------------------------------------------------- price-time priority

  /** What is left of the order when the walk reaches the i-th in the queue. */
  function LeftAt(input: Input, queue: seq<Candidate>, i: nat): int
    requires Sized(queue) && i <= |queue| && Walked(input, queue, i).Answer?
  {
    Walked(input, queue, i).value.left
  }

  /** The i-th in the queue was passed over: it could not deliver what it was to. */
  predicate Passed(input: Input, queue: seq<Candidate>, i: nat)
    requires Sized(queue) && i < |queue| && Walked(input, queue, i).Answer?
  {
    && 0 < LeftAt(input, queue, i)
    && DeliveryOf(input, queue[i], Least(LeftAt(input, queue, i), queue[i].remaining)) == Short
  }

  predicate TakenIn(legs: seq<Leg>, c: Candidate, quantity: int) {
    exists l | l in legs :: l.candidate == c && l.quantity == quantity
  }

  lemma {:induction false} WalkGrows(input: Input, queue: seq<Candidate>, i: nat, n: nat)
    requires i <= n <= |queue| && Sized(queue) && Walked(input, queue, n).Answer?
    ensures Walked(input, queue, i).Answer?
    ensures Walked(input, queue, i).value.legs <= Walked(input, queue, n).value.legs
    ensures LeftAt(input, queue, n) <= LeftAt(input, queue, i)
  {
    hide DeliveryOf, QuoteDown;
    if i < n {
      assert queue[n - 1] in queue;
      WalkGrows(input, queue, i, n - 1);
    }
  }

  /** As long as something is left after it, a maker was filled in full or passed over. */
  lemma TurnDecides(input: Input, queue: seq<Candidate>, i: nat)
    requires Sized(queue) && i < |queue| && Walked(input, queue, i + 1).Answer?
    requires LeftAt(input, queue, i + 1) > 0
    ensures Walked(input, queue, i).Answer?
    ensures || Passed(input, queue, i)
            || TakenIn(Walked(input, queue, i + 1).value.legs, queue[i], queue[i].remaining)
            || (|Walked(input, queue, i).value.legs| == input.maxMakers
                && Walked(input, queue, i + 1) == Walked(input, queue, i)
                && input.order.terms.tif == 1)
  {
    hide DeliveryOf, QuoteDown;
    assert queue[i] in queue;
    WalkGrows(input, queue, i, i + 1);
    var w, c, after := Walked(input, queue, i).value, queue[i], Walked(input, queue, i + 1).value;
    if !Passed(input, queue, i) && !Ends(input, w) {
      assert after.legs[|w.legs|] in after.legs;
    }
  }

  /** Price-time priority: when a maker is taken, every candidate ahead of it in the queue was filled
      in full, or could not deliver what was left for it at its turn. */
  lemma PriceTimePriority(input: Input, queue: seq<Candidate>, i: nat, j: nat)
    requires Planning(input, queue) && Walked(input, queue, |queue|).Answer? && i < j < |queue|
    requires exists l | l in Walked(input, queue, |queue|).value.legs :: l.candidate == queue[j]
    ensures Ahead(input.order.terms.side, queue[i], queue[j])
    ensures Walked(input, queue, i).Answer?
    ensures Passed(input, queue, i) || TakenIn(Walked(input, queue, |queue|).value.legs, queue[i], queue[i].remaining)
  {
    hide DeliveryOf, QuoteDown, Walking, Reported, Turn, Ahead;
    WalkGrows(input, queue, j, |queue|);
    WalkGrows(input, queue, i + 1, j);
    WalkGrows(input, queue, i, i + 1);
    StillTaking(input, queue, j);
    TurnDecides(input, queue, i);
    StaysTaken(Walked(input, queue, i + 1).value.legs, Walked(input, queue, |queue|).value.legs, queue[i],
               queue[i].remaining);
    assert Walked(input, queue, i).value.legs <= Walked(input, queue, j).value.legs;
  }

  lemma StaysTaken(a: seq<Leg>, b: seq<Leg>, c: Candidate, quantity: int)
    requires a <= b
    ensures TakenIn(a, c, quantity) ==> TakenIn(b, c, quantity)
  {
    if TakenIn(a, c, quantity) {
      var l :| l in a && l.candidate == c && l.quantity == quantity;
      assert l in b;
    }
  }

  /** The walk had not ended when it took the j-th. */
  lemma StillTaking(input: Input, queue: seq<Candidate>, j: nat)
    requires Planning(input, queue) && Walked(input, queue, |queue|).Answer? && j < |queue|
    requires exists l | l in Walked(input, queue, |queue|).value.legs :: l.candidate == queue[j]
    ensures Walked(input, queue, j).Answer? && LeftAt(input, queue, j) > 0
            && |Walked(input, queue, j).value.legs| < input.maxMakers
  {
    hide DeliveryOf, QuoteDown, Reported, Turn, LegOk, Lapses, Kept, Filled, Cost, Ahead;
    WalkGrows(input, queue, j, |queue|);
    WalkIsSound(input, queue, j);
    var w := Walked(input, queue, j).value;
    if Ends(input, w) {
      EndStays(input, queue, j, |queue|);
      NotYetSeen(input, queue, j);
    } else if |w.legs| >= input.maxMakers {
      TurnRefuses(input, queue, j);
    }
  }

  lemma TurnRefuses(input: Input, queue: seq<Candidate>, j: nat)
    requires Sized(queue) && j < |queue| && Walked(input, queue, j).Answer?
             && !Ends(input, Walked(input, queue, j).value)
    requires |Walked(input, queue, j).value.legs| == input.maxMakers
    ensures Walked(input, queue, |queue|).Refused?
  {
    hide DeliveryOf, QuoteDown;
    assert queue[j] in queue;
    RefusalStays(input, queue, j + 1, |queue|);
  }

  /** The first j turns take nobody from the rest of the queue. */
  lemma NotYetSeen(input: Input, queue: seq<Candidate>, j: nat)
    requires Planning(input, queue) && j < |queue| && Walked(input, queue, j).Answer?
    ensures forall l | l in Walked(input, queue, j).value.legs :: l.candidate != queue[j]
  {
    hide DeliveryOf, QuoteDown, Reported, Turn, LegOk, Lapses, Kept, Filled, Cost;
    WalkIsSound(input, queue, j);
    forall l | l in Walked(input, queue, j).value.legs
      ensures l.candidate != queue[j]
    {
      var k :| 0 <= k < j && queue[..j][k] == l.candidate;
      assert Ahead(input.order.terms.side, queue[k], queue[j]);
    }
  }

  /** What is left to rest has passed the whole queue: every candidate was filled in full or could
      not deliver at its turn. */
  lemma RemainderHasPassed(input: Input, queue: seq<Candidate>, i: nat)
    requires Planning(input, queue) && Walked(input, queue, |queue|).Answer? && i < |queue|
    requires input.order.terms.tif == 0 && LeftAt(input, queue, |queue|) > 0
    ensures Walked(input, queue, i).Answer?
    ensures Passed(input, queue, i) || TakenIn(Walked(input, queue, |queue|).value.legs, queue[i], queue[i].remaining)
  {
    hide DeliveryOf, QuoteDown, Walking, Reported, Turn, Ahead;
    WalkGrows(input, queue, i + 1, |queue|);
    WalkGrows(input, queue, i, i + 1);
    TurnDecides(input, queue, i);
    StaysTaken(Walked(input, queue, i + 1).value.legs, Walked(input, queue, |queue|).value.legs, queue[i],
               queue[i].remaining);
  }

  /** A maker able to deliver all it has left can deliver any part of it. */
  lemma PartsDeliver(input: Input, c: Candidate, part: u64, whole: u64)
    requires part <= whole && DeliveryOf(input, c, whole).Delivers?
    ensures DeliveryOf(input, c, part).Delivers?
  {
    hide MultiplierParts;
    if c.order.terms.side == 1 && input.legs.Some? && c.order.terms.Collateral() in input.legs.value {
      var leg := input.legs.value[c.order.terms.Collateral()];
      if MultiplierParts(leg.multiplier).Ok? {
        PartConverts(part, whole, leg.scale, MultiplierParts(leg.multiplier).value);
      }
    }
  }

  lemma PartConverts(part: u64, whole: u64, scale: u64, parts: Parts)
    requires parts.mantissa > 0
    ensures part <= whole ==> part * scale <= whole * scale
    ensures part <= whole ==> RawUnits(part, scale, parts, false) <= RawUnits(whole, scale, parts, false)
  {
    if part <= whole {
      MulMono(part, whole, scale);
      MulMono(part * scale, whole * scale, Pow2(parts.shift));
      FloorMono(part * scale * Pow2(parts.shift), whole * scale * Pow2(parts.shift), parts.mantissa);
    }
  }

  /** Its reservation covers all it has left, at the live multiplier. */
  predicate InFull(input: Input, c: Candidate) {
    0 < c.remaining <= U64_MAX && DeliveryOf(input, c, c.remaining).Delivers?
  }

  function FullAmount(input: Input): Candidate -> int {
    (c: Candidate) => if InFull(input, c) then c.remaining else 0
  }

  /** The eligible candidates that deliver in full have this much left together. */
  function FullTotal(input: Input): int {
    Total(EligibleOf(input, |input.candidates|), FullAmount(input))
  }

  /** What is left of a resting order once the whole queue has been walked. */
  ghost predicate Resting(input: Input, queue: seq<Candidate>) {
    && Planning(input, queue) && Queue(input, queue) && Walked(input, queue, |queue|).Answer?
    && input.order.terms.tif == 0 && LeftAt(input, queue, |queue|) > 0
  }

  /** When something is left to rest, a turn takes all of a maker that delivers in full, and nothing of
      any other: a part would have used up the order. */
  lemma TurnTakesFull(input: Input, queue: seq<Candidate>, i: nat)
    requires Resting(input, queue) && i < |queue|
    ensures Walked(input, queue, i).Answer? && Walked(input, queue, i + 1).Answer?
    ensures LeftAt(input, queue, i + 1) == LeftAt(input, queue, i) - FullAmount(input)(queue[i])
    ensures !InFull(input, queue[i]) ==> Walked(input, queue, i + 1) == Walked(input, queue, i)
  {
    hide DeliveryOf, QuoteDown, Reported, Ahead, Ranked, Eligible, Entry, EligibleOf;
    assert queue[i] in queue;
    WalkGrows(input, queue, i + 1, |queue|);
    WalkGrows(input, queue, i, i + 1);
    var w, c := Walked(input, queue, i).value, queue[i];
    if DeliveryOf(input, c, c.remaining).Delivers? {
      PartsDeliver(input, c, Least(w.left, c.remaining), c.remaining);
    }
  }

  lemma {:induction false} LeftIsWithoutFull(input: Input, queue: seq<Candidate>, n: nat)
    requires Resting(input, queue) && n <= |queue|
    ensures Walked(input, queue, n).Answer?
    ensures LeftAt(input, queue, n) == input.order.terms.quantity - Total(queue[..n], FullAmount(input))
  {
    hide Resting, FullAmount, Turn;
    if n == 0 {
      StartsWith(input);
    } else {
      LeftIsWithoutFull(input, queue, n - 1);
      TurnTakesFull(input, queue, n - 1);
      OneMoreTotal(queue[..n - 1], queue[n - 1], FullAmount(input));
      assert queue[..n] == queue[..n - 1] + [queue[n - 1]];
    }
  }

  /** The remainder is what the makers that deliver in full leave of the order. */
  lemma RemainderIs(input: Input, queue: seq<Candidate>)
    requires Resting(input, queue)
    ensures LeftAt(input, queue, |queue|) == input.order.terms.quantity - FullTotal(input)
  {
    hide FullAmount, Planning, Walked, Ranked, EligibleOf;
    LeftIsWithoutFull(input, queue, |queue|);
    assert queue[..|queue|] == queue;
    TotalPermuted(queue, EligibleOf(input, |input.candidates|), FullAmount(input));
  }

  lemma {:induction false} ShortIsNeverTaken(input: Input, queue: seq<Candidate>, n: nat, c: Candidate)
    requires Resting(input, queue) && n <= |queue| && !InFull(input, c)
    ensures Walked(input, queue, n).Answer?
    ensures forall l | l in Walked(input, queue, n).value.legs :: l.candidate != c
  {
    hide Resting, DeliveryOf, QuoteDown, InFull;
    if n == 0 {
      StartsWith(input);
    } else {
      ShortIsNeverTaken(input, queue, n - 1, c);
      TurnTakesFull(input, queue, n - 1);
    }
  }

  /** Behind an order that rests, exactly the candidates that deliver in full are filled, in full; of
      any other nothing is taken. */
  lemma TakenExactlyInFull(input: Input, queue: seq<Candidate>, c: Candidate)
    requires Resting(input, queue) && c in input.candidates && Eligible(input, c)
    ensures InFull(input, c) <==> TakenIn(Walked(input, queue, |queue|).value.legs, c, c.remaining)
    ensures InFull(input, c) <==> exists l | l in Walked(input, queue, |queue|).value.legs :: l.candidate == c
  {
    hide DeliveryOf, QuoteDown, Walking, Reported, Turn, Ahead, Eligible, Entry, Walked;
    QueueHolds(input, queue, c);
    var i :| 0 <= i < |queue| && queue[i] == c;
    if InFull(input, c) {
      RemainderHasPassed(input, queue, i);
      if Passed(input, queue, i) {
        PartsDeliver(input, c, Least(LeftAt(input, queue, i), c.remaining), c.remaining);
      }
    } else {
      ShortIsNeverTaken(input, queue, |queue|, c);
    }
  }

  /** The remainder would rest across this maker: nothing of it was taken, though it could deliver what
      the remainder asks of it. */
  predicate RestsAcross(input: Input, queue: seq<Candidate>, c: Candidate)
    requires Sized(queue) && Walked(input, queue, |queue|).Answer?
  {
    && (forall l | l in Walked(input, queue, |queue|).value.legs :: l.candidate != c)
    && 0 <= Least(LeftAt(input, queue, |queue|), c.remaining) <= U64_MAX
    && DeliveryOf(input, c, Least(LeftAt(input, queue, |queue|), c.remaining)).Delivers?
  }

  /** A maker that delivers only in part, but the part that those that deliver in full leave. */
  predicate DeliversTheRest(input: Input, c: Candidate) {
    var part := Least(input.order.terms.quantity - FullTotal(input), c.remaining);
    !InFull(input, c) && 0 <= part <= U64_MAX && DeliveryOf(input, c, part).Delivers?
  }

  /** A remainder rests across exactly the makers that cannot deliver all they have left, but can deliver
      what it asks of them; all of that is known of the book before the order is planned. */
  lemma RemainderCrosses(input: Input, queue: seq<Candidate>, c: Candidate)
    requires Resting(input, queue) && c in input.candidates && Eligible(input, c)
    ensures RestsAcross(input, queue, c) <==> DeliversTheRest(input, c)
  {
    hide DeliveryOf, Planning, Walked, Ranked, EligibleOf, Eligible, InFull, FullTotal;
    TakenExactlyInFull(input, queue, c);
    RemainderIs(input, queue);
  }

  /** So it crosses nobody exactly when the book has no such maker. */
  lemma RemainderCrossesNobody(input: Input, queue: seq<Candidate>)
    requires Resting(input, queue)
    ensures (forall c | c in input.candidates && Eligible(input, c) :: !RestsAcross(input, queue, c))
       <==> (forall c | c in input.candidates && Eligible(input, c) :: !DeliversTheRest(input, c))
  {
    hide RestsAcross, DeliversTheRest, Eligible, Queue, Walked, Reported, Ranked, Entry;
    forall c | c in input.candidates && Eligible(input, c)
      ensures RestsAcross(input, queue, c) <==> DeliversTheRest(input, c)
    {
      RemainderCrosses(input, queue, c);
    }
  }

  // ---------------------------------------------------- the check before signing

  function Sum(quantities: seq<int>): int {
    if quantities == [] then 0 else Sum(quantities[..|quantities| - 1]) + quantities[|quantities| - 1]
  }

  predicate InRange(x: int) {
    0 <= x <= U64_MAX
  }

  /** One leg of a plan against the order it is for. */
  predicate LegReads(p: AtomicPlan, order: Wire, i: nat)
    requires i < |p.makers| == |p.quantities| == |p.expectedRemaining|
  {
    var w, q := p.makers[i], p.quantities[i];
    var t, o := order.terms, w.terms;
    && Parses(w) && 0 < q <= p.expectedRemaining[i] <= o.quantity
    && (forall j | 0 <= j < i :: IdOf(p.makers[j]) != IdOf(w))
    && w.market == order.market && o.branch == t.branch && o.side != t.side && o.tif == 0
    && (if t.side == 0 then t.Accepts(o.Collateral()) else o.Accepts(t.Collateral()))
    && o.maxFeeBps >= p.makerBps
    && (if t.side == 0 then o.price <= t.price else o.price >= t.price)
    && Floor(q, o.price) <= U64_MAX
  }

  /** What the first n legs cost. */
  function Quoted(p: AtomicPlan, n: nat): int
    requires n <= |p.makers| == |p.quantities|
  {
    if n == 0 then 0
    else Quoted(p, n - 1) + (if p.quantities[n - 1] > 0 then Floor(p.quantities[n - 1], p.makers[n - 1].terms.price)
      else 0)
  }

  /** Every leg reads well, and together they ask for no more than the order. */
  predicate LegsRead(p: AtomicPlan, order: Wire)
    requires |p.makers| == |p.quantities| == |p.expectedRemaining|
  {
    (forall i | 0 <= i < |p.makers| :: LegReads(p, order, i)) && Sum(p.quantities) <= order.terms.quantity
  }

  /** What a plan must be for a wallet to sign its placement. */
  predicate Reads(p: AtomicPlan, order: Wire) {
    && |p.makers| == |p.quantities| == |p.expectedRemaining| <= MAX_MAKERS
    && (p.surplus.Some? ==> |p.surplus.value| == |p.makers|)
    && InRange(p.nextSequence) && InRange(p.minFill)
    && LegsRead(p, order)
    && 0 <= p.makerBps <= MAX_FEE_BPS && 0 <= p.takerBps <= MAX_FEE_BPS
    && (p.makers != [] ==> p.takerBps <= order.terms.maxFeeBps)
    && InRange(p.deadline) && p.deadline <= order.terms.expiry
    && Sum(p.quantities) + p.remaining == order.terms.quantity && InRange(p.remaining)
    && p.filled == Sum(p.quantities) && InRange(p.filled) && p.minFill <= p.filled
    && p.executionQuote == Quoted(p, |p.makers|) && InRange(p.executionQuote)
  }

  /** Reads the legs of a plan one by one. */
  method ParseLegs(p: AtomicPlan, order: Wire) returns (ok: bool, remaining: int, execution: int)
    requires |p.makers| == |p.quantities| == |p.expectedRemaining|
    ensures ok <==> LegsRead(p, order)
    ensures ok ==> remaining == order.terms.quantity - Sum(p.quantities) && execution == Quoted(p, |p.makers|)
  {
    hide Parses, Floor, OrderTerms.Collateral, OrderTerms.Accepts, Sum;
    remaining, execution := order.terms.quantity, 0;
    var seen: set<OrderId> := {};
    NothingAsked();
    assert p.quantities[..0] == [];
    for i := 0 to |p.makers|
      invariant forall j | 0 <= j < i :: LegReads(p, order, j)
      invariant forall x :: x in seen <==> exists j | 0 <= j < i :: IdOf(p.makers[j]) == x
      invariant remaining == order.terms.quantity - Sum(p.quantities[..i]) && 0 <= remaining
      invariant execution == Quoted(p, i)
    {
      var w, q := p.makers[i], p.quantities[i];
      var t, o := order.terms, w.terms;
      OneMoreAsked(p, order, i);
      if !Parses(w) || IdOf(w) in seen || !(0 < q <= p.expectedRemaining[i] <= o.quantity) {
        assert !LegReads(p, order, i);
        return false, remaining, execution;
      }
      if q > remaining { return false, remaining, execution; }
      if w.market != order.market || o.branch != t.branch || o.side == t.side || o.tif != 0
         || !(if t.side == 0 then t.Accepts(o.Collateral()) else o.Accepts(t.Collateral()))
         || o.maxFeeBps < p.makerBps || !(if t.side == 0 then o.price <= t.price else o.price >= t.price)
      {
        assert !LegReads(p, order, i);
        return false, remaining, execution;
      }
      var payment := QuoteDown(q, o.price);
      if payment.Err? {
        assert !LegReads(p, order, i);
        return false, remaining, execution;
      }
      seen, remaining, execution := seen + {IdOf(w)}, remaining - q, execution + payment.value;
    }
    assert p.quantities[..|p.makers|] == p.quantities;
    ok := true;
  }

  lemma NothingAsked()
    ensures Sum([]) == 0
  {
  }

  /** A leg that exceeds what is left of the order is in no plan that adds up. */
  lemma OneMoreAsked(p: AtomicPlan, order: Wire, i: nat)
    requires i < |p.makers| == |p.quantities| == |p.expectedRemaining|
    ensures Sum(p.quantities[..i + 1]) == Sum(p.quantities[..i]) + p.quantities[i]
    ensures LegsRead(p, order) ==> p.quantities[i] <= order.terms.quantity - Sum(p.quantities[..i])
  {
    hide Parses, Floor, OrderTerms.Collateral, OrderTerms.Accepts;
    assert p.quantities[..i + 1][..i] == p.quantities[..i];
    if LegsRead(p, order) {
      forall j | 0 <= j < |p.quantities|
        ensures p.quantities[j] >= 0
      {
        assert LegReads(p, order, j);
      }
      SumPrefix(p.quantities, i + 1);
    }
  }

  lemma {:induction false} SumPrefix(quantities: seq<int>, i: nat)
    requires i <= |quantities| && forall j | 0 <= j < |quantities| :: quantities[j] >= 0
    ensures Sum(quantities[..i]) <= Sum(quantities)
    decreases |quantities|
  {
    if i < |quantities| {
      assert quantities[..|quantities| - 1][..i] == quantities[..i];
      SumPrefix(quantities[..|quantities| - 1], i);
    } else {
      assert quantities[..i] == quantities;
    }
  }

  /** Reads a plan leg by leg, whatever totals it claims. */
  method ParsePlan(p: AtomicPlan, order: Wire) returns (ok: bool)
    ensures ok <==> Reads(p, order)
  {
    hide LegsRead, Sum, Quoted;
    if !(|p.makers| <= MAX_MAKERS && |p.makers| == |p.quantities| == |p.expectedRemaining|) { return false; }
    if p.surplus.Some? && |p.surplus.value| != |p.makers| { return false; }
    if !InRange(p.nextSequence) || !InRange(p.minFill) { return false; }
    var legs, remaining, execution := ParseLegs(p, order);
    if !legs { return false; }
    ok := && 0 <= p.makerBps <= MAX_FEE_BPS && 0 <= p.takerBps <= MAX_FEE_BPS
          && (p.makers == [] || p.takerBps <= order.terms.maxFeeBps)
          && InRange(p.deadline) && p.deadline <= order.terms.expiry
          && InRange(p.remaining) && remaining == p.remaining
          && InRange(p.filled) && order.terms.quantity - remaining == p.filled
          && p.minFill <= order.terms.quantity - remaining
          && InRange(p.executionQuote) && execution == p.executionQuote;
  }

  // --------------------------------------------------------- plans pass the check

  lemma {:induction false} SumsAgree(p: AtomicPlan, legs: seq<Leg>, n: nat)
    requires n <= |legs| && p.makers == Makers(legs) && p.quantities == Quantities(legs) && forall l | l in legs ::
             l.quantity > 0
    ensures Sum(p.quantities[..n]) == Filled(legs[..n]) && Quoted(p, n) == Cost(legs[..n])
  {
    hide Floor;
    if n == 0 {
      assert p.quantities[..0] == [] && legs[..0] == [];
    } else {
      SumsAgree(p, legs, n - 1);
      assert p.quantities[..n][..n - 1] == p.quantities[..n - 1] && legs[..n][..n - 1] == legs[..n - 1];
      assert legs[n - 1] in legs;
    }
  }

  lemma TwoSides(w: Wire)
    requires Parses(w)
    ensures w.terms.side < 2
  {
  }

  lemma NamedApart(input: Input, c: Candidate, d: Candidate)
    requires input.step > 0 && AllReported(input) && c in input.candidates && d in input.candidates && c != d
    ensures IdOf(c.order) != IdOf(d.order) && c.id == IdOf(c.order) && d.id == IdOf(d.order)
  {
    hide Parses;
    var i :| 0 <= i < |input.candidates| && input.candidates[i] == c;
    var j :| 0 <= j < |input.candidates| && input.candidates[j] == d;
    assert Reported(input, input.candidates[i]) && Reported(input, input.candidates[j]);
  }

  // ------------------------------------------------------------ best price first

  /** A better offer to the taker: cheaper to a buyer, dearer to a seller, or as priced and earlier. */
  predicate Better(side: nat, d: Candidate, c: Candidate) {
    || (side == 0 && d.order.terms.price < c.order.terms.price)
    || (side != 0 && d.order.terms.price > c.order.terms.price)
    || (d.order.terms.price == c.order.terms.price && d.sequence < c.sequence)
  }

  /** An ask whose known reservation does not cover what it would have to deliver. */
  predicate CannotDeliver(input: Input, d: Candidate, amount: int) {
    && 0 <= amount <= U64_MAX && d.order.terms.side == 1 && d.reserved.Some?
    && input.legs.Some? && d.order.terms.Collateral() in input.legs.value
    && var leg := input.legs.value[d.order.terms.Collateral()];
    && BaseRaw(amount, leg.scale, leg.multiplier, false).Ok?
    && BaseRaw(amount, leg.scale, leg.multiplier, false).value > d.reserved.value
  }

  /** The plan fills a candidate in full. */
  predicate FillsInFull(p: AtomicPlan, d: Candidate)
    requires |p.makers| == |p.quantities|
  {
    exists i | 0 <= i < |p.makers| :: p.makers[i] == d.order && p.quantities[i] == d.remaining
  }

  /** After the first n of the plan's makers, none worse priced than it, what was left of the order was
      more than the candidate could deliver. */
  predicate PassedAfter(input: Input, p: AtomicPlan, d: Candidate, n: nat)
    requires n <= |p.makers| == |p.quantities|
  {
    var left := input.order.terms.quantity - Sum(p.quantities[..n]);
    && left > 0 && CannotDeliver(input, d, Least(left, d.remaining))
    && forall m | 0 <= m < n ::
         if input.order.terms.side == 0 then p.makers[m].terms.price <= d.order.terms.price
         else p.makers[m].terms.price >= d.order.terms.price
  }

  lemma ShortCannotDeliver(input: Input, d: Candidate, amount: u64)
    requires DeliveryOf(input, d, amount) == Short
    ensures CannotDeliver(input, d, amount)
  {
    hide BaseRaw;
  }

  lemma BetterIsAhead(side: nat, queue: seq<Candidate>, c: Candidate, d: Candidate) returns (i: nat, j: nat)
    requires Ranked(side, queue) && c in queue && d in queue && Better(side, d, c)
    ensures i < j < |queue| && queue[i] == d && queue[j] == c
  {
    i :| 0 <= i < |queue| && queue[i] == d;
    j :| 0 <= j < |queue| && queue[j] == c;
  }

  lemma TakenIsFilled(p: AtomicPlan, legs: seq<Leg>, d: Candidate)
    requires p.makers == Makers(legs) && p.quantities == Quantities(legs) && TakenIn(legs, d, d.remaining)
    ensures FillsInFull(p, d)
  {
    var l :| l in legs && l.candidate == d && l.quantity == d.remaining;
    var i :| 0 <= i < |legs| && legs[i] == l;
    assert p.makers[i] == d.order;
  }

  /** None of the legs taken before a candidate's turn is worse priced than it. */
  lemma PricedNoWorse(input: Input, queue: seq<Candidate>, i: nat, w: Walk, m: nat)
    requires input.step > 0 && Ranked(input.order.terms.side, queue) && i < |queue| && Walking(input, queue[..i], w)
    requires m < |w.legs|
    ensures var p, q := w.legs[m].candidate.order.terms.price, queue[i].order.terms.price;
            if input.order.terms.side == 0 then p <= q else p >= q
  {
    hide LegOk, LegsRanked, Lapses, Kept, Cost, Filled;
    assert w.legs[m] in w.legs;
    var k :| 0 <= k < i && queue[..i][k] == w.legs[m].candidate;
    assert Ahead(input.order.terms.side, queue[k], queue[i]);
  }

  lemma PassedIsPassedAfter(input: Input, queue: seq<Candidate>, i: nat)
    requires Planning(input, queue) && PlanOf(input, queue).Answer? && Walked(input, queue, |queue|).Answer?
             && i < |queue|
    requires Walked(input, queue, i).Answer? && Passed(input, queue, i)
    ensures var p := PlanOf(input, queue).value;
            exists n | 0 <= n <= |p.makers| :: |p.makers| == |p.quantities| && PassedAfter(input, p, queue[i], n)
  {
    hide DeliveryOf, LegOk, LegsRanked, Lapses, Kept, Cost, Reported, CannotDeliver, Entry, Sum, Filled, Ranked, Turn;
    var p, w := PlanOf(input, queue).value, Walked(input, queue, i).value;
    var all := Walked(input, queue, |queue|).value;
    var n := |w.legs|;
    WalkGrows(input, queue, i, |queue|);
    WalkIsSound(input, queue, i);
    LegsPositive(input, queue, |queue|);
    SumsAgree(p, all.legs, n);
    assert all.legs[..n] == w.legs && queue[i] in queue;
    ShortCannotDeliver(input, queue[i], Least(w.left, queue[i].remaining));
    forall m | 0 <= m < n
      ensures if input.order.terms.side == 0 then p.makers[m].terms.price <= queue[i].order.terms.price
              else p.makers[m].terms.price >= queue[i].order.terms.price
    {
      PricedNoWorse(input, queue, i, w, m);
      assert all.legs[m] == w.legs[m];
    }
    assert PassedAfter(input, p, queue[i], n);
  }

  lemma LegsPositive(input: Input, queue: seq<Candidate>, n: nat)
    requires Planning(input, queue) && n <= |queue| && Walked(input, queue, n).Answer?
    ensures forall l | l in Walked(input, queue, n).value.legs :: l.quantity > 0
  {
    hide Floor, DeliveryOf, LegsRanked, Lapses, Kept, Reported, Ranked;
    WalkIsSound(input, queue, n);
  }

  /** A plan takes the best offers first. When it uses one candidate, every eligible one that is cheaper
      to a buyer, dearer to a seller, or as priced and earlier, is filled in full, or its reservation did
      not cover what was left for it after makers priced no worse. */
  lemma BestFirst(input: Input, queue: seq<Candidate>, j: nat, c: Candidate, d: Candidate)
    requires Planning(input, queue) && AllReported(input) && Queue(input, queue) && PlanOf(input, queue).Answer?
    requires j < |PlanOf(input, queue).value.makers| && c in input.candidates
             && PlanOf(input, queue).value.makers[j] == c.order
    requires d in input.candidates && Eligible(input, d)
    requires || (input.order.terms.side == 0 && d.order.terms.price < c.order.terms.price)
             || (input.order.terms.side == 1 && d.order.terms.price > c.order.terms.price)
             || (d.order.terms.price == c.order.terms.price && d.sequence < c.sequence)
    ensures var p := PlanOf(input, queue).value;
            && |p.makers| == |p.quantities|
            && (FillsInFull(p, d) || exists n | 0 <= n <= |p.makers| :: PassedAfter(input, p, d, n))
  {
    hide Walking, Turn, Parses, Floor, AllReported, Eligible, DeliveryOf, Walked, Reported, Ahead, PassedAfter,
      FillsInFull, Passed, TakenIn, Ranked, Queue;
    var p, legs := PlanOf(input, queue).value, Walked(input, queue, |queue|).value.legs;
    UsedCandidate(input, queue, j, c);
    QueueHolds(input, queue, d);
    var a, b := BetterIsAhead(input.order.terms.side, queue, c, d);
    PriceTimePriority(input, queue, a, b);
    if Passed(input, queue, a) {
      PassedIsPassedAfter(input, queue, a);
    } else {
      TakenIsFilled(p, legs, d);
    }
  }

  /** The candidate of one of the plan's makers is the one whose leg it is. */
  lemma UsedCandidate(input: Input, queue: seq<Candidate>, j: nat, c: Candidate)
    requires Planning(input, queue) && AllReported(input) && Queue(input, queue) && PlanOf(input, queue).Answer?
    requires j < |PlanOf(input, queue).value.makers| && c in input.candidates
             && PlanOf(input, queue).value.makers[j] == c.order
    ensures c in queue && exists l | l in Walked(input, queue, |queue|).value.legs :: l.candidate == c
  {
    hide Turn, Parses, Floor, AllReported, Eligible, DeliveryOf, Walked, Reported, LegOk, LegsRanked, Lapses, Kept,
      Filled, Cost, Ranked, Queue;
    WalkIsSound(input, queue, |queue|);
    assert queue[..|queue|] == queue;
    var legs := Walked(input, queue, |queue|).value.legs;
    assert legs[j] in legs;
    QueueHolds(input, queue, legs[j].candidate);
    if legs[j].candidate != c {
      NamedApart(input, legs[j].candidate, c);
    }
  }

  /** A leg the planner took reads well. */
  lemma LegIsRead(input: Input, queue: seq<Candidate>, w: Walk, i: nat)
    requires Planning(input, queue) && AllReported(input) && Queue(input, queue) && Walking(input, queue, w)
             && i < |w.legs|
    ensures LegReads(Assembled(input, w), input.order, i)
  {
    hide Parses, Floor, Filled, Cost, OrderTerms.Collateral, OrderTerms.Accepts, DeliveryOf, Lapses, Kept;
    TwoSides(w.legs[i].candidate.order);
    TwoSides(input.order);
    var l, p := w.legs[i], Assembled(input, w);
    assert l in w.legs;
    QueueHolds(input, queue, l.candidate);
    forall j | 0 <= j < i
      ensures IdOf(p.makers[j]) != IdOf(p.makers[i])
    {
      assert w.legs[j] in w.legs;
      QueueHolds(input, queue, w.legs[j].candidate);
      assert Ahead(input.order.terms.side, w.legs[j].candidate, l.candidate);
      NamedApart(input, w.legs[j].candidate, l.candidate);
    }
  }

  /** What a plan costs is within what its makers offer. */
  lemma {:induction false} CostIsOffered(input: Input, queue: seq<Candidate>, n: nat)
    requires Sized(queue) && n <= |queue| && Walked(input, queue, n).Answer?
    ensures Walked(input, queue, n).value.quote <= Total(queue[..n], Offer())
  {
    hide DeliveryOf, Floor, Ceil;
    if n > 0 {
      var c, w := queue[n - 1], Walked(input, queue, n - 1);
      assert c in queue;
      CostIsOffered(input, queue, n - 1);
      assert queue[..n][..n - 1] == queue[..n - 1];
      QuoteMono(Least(w.value.left, c.remaining), c.remaining, c.order.terms.price, c.order.terms.price);
      QuoteMono(0, c.remaining, c.order.terms.price, c.order.terms.price);
    }
  }

  /** A plan passes the check before signing exactly when what it costs fits the wire and its deadline
      is not before the epoch; nothing else about it can be refused. */
  lemma ReadsWhen(input: Input, queue: seq<Candidate>)
    requires Planning(input, queue) && AllReported(input) && Queue(input, queue) && PlanOf(input, queue).Answer?
    ensures var p := PlanOf(input, queue).value;
            Reads(p, input.order) <==> p.executionQuote <= U64_MAX && p.deadline >= 0
  {
    hide Walking, Turn, LegReads, Parses, Floor, Queue, AllReported, Reported, Sum, Filled, Cost, Quoted;
    WalkIsSound(input, queue, |queue|);
    assert queue[..|queue|] == queue;
    var w, p := Walked(input, queue, |queue|).value, PlanOf(input, queue).value;
    WalkedFacts(input, queue, w);
    forall i | 0 <= i < |p.makers|
      ensures LegReads(p, input.order, i)
    {
      LegIsRead(input, queue, w, i);
    }
    SumsAgree(p, w.legs, |w.legs|);
    assert w.legs[..|w.legs|] == w.legs && p.quantities[..|w.legs|] == p.quantities;
    CostIsPositive(w.legs);
  }

  /** Where the makers' offers fit 64 bits together, a plan passes the check before signing exactly when
      the clock is at most one plan's lifetime before the epoch. */
  lemma PlansAreRead(input: Input, queue: seq<Candidate>)
    requires Planning(input, queue) && AllReported(input) && Queue(input, queue) && PlanOf(input, queue).Answer?
    requires Offered(input) <= U64_MAX
    ensures Reads(PlanOf(input, queue).value, input.order) <==> -PLAN_SECONDS <= input.now
  {
    hide Walking, Turn, Parses, Floor, AllReported, Total, Reads, Eligible;
    ReadsWhen(input, queue);
    CostIsOffered(input, queue, |queue|);
    assert queue[..|queue|] == queue;
    TotalPermuted(queue, EligibleOf(input, |input.candidates|), Offer());
    DeadlineIs(input, queue);
  }

  /** Orders expire after the epoch, so a deadline is before it only if the clock is long before it. */
  lemma DeadlineIs(input: Input, queue: seq<Candidate>)
    requires Planning(input, queue) && Walked(input, queue, |queue|).Answer?
    ensures Walked(input, queue, |queue|).value.deadline >= 0 <==> -PLAN_SECONDS <= input.now
  {
    hide Walked, LegOk, LegsRanked, Kept, Filled, Cost, DeliveryOf, Floor, Ahead;
    WalkIsSound(input, queue, |queue|);
    var w := Walked(input, queue, |queue|).value;
    forall l | l in w.legs
      ensures 0 <= l.candidate.order.terms.expiry
    {
      assert queue[..|queue|] == queue && l.candidate in queue;
    }
  }

  /** What a plan says of itself: at most eight makers, a deadline that is the first of a minute
      from now and the expiries of those it binds; its quantities and
      prices add up to what it claims, and it demands a fill exactly when it cannot rest. */
  lemma PlanAddsUp(input: Input, queue: seq<Candidate>)
    requires Planning(input, queue) && PlanOf(input, queue).Answer?
    ensures var p, t := PlanOf(input, queue).value, input.order.terms;
            && |p.makers| == |p.quantities| == |p.expectedRemaining| && |p.makers| <= input.maxMakers <= 8
            && p.nextSequence == input.nextSequence && p.makerBps == input.makerBps && p.takerBps == input.takerBps
            && p.filled == Sum(p.quantities) && p.filled + p.remaining == t.quantity && p.remaining >= 0
            && p.executionQuote == Quoted(p, |p.makers|)
            && p.deadline <= input.now + 60 && p.deadline <= t.expiry
            && (forall i | 0 <= i < |p.makers| :: p.deadline <= p.makers[i].terms.expiry && p.quantities[i] > 0)
            && (p.deadline == input.now + 60 || p.deadline == t.expiry
                || exists i | 0 <= i < |p.makers| :: p.deadline == p.makers[i].terms.expiry)
            && p.minFill == (if t.tif == 1 && p.makers != [] then input.step else 0)
            && (p.makers != [] ==> input.takerBps <= t.maxFeeBps)
  {
    hide Walking, Turn, Parses, Floor, Reported, Sum, Filled, Cost, Quoted, Ranked;
    WalkIsSound(input, queue, |queue|);
    var w, p := Walked(input, queue, |queue|).value, PlanOf(input, queue).value;
    PlanFits(input, queue, w);
    SumsAgree(p, w.legs, |w.legs|);
    assert w.legs[..|w.legs|] == w.legs && p.quantities[..|w.legs|] == p.quantities && queue[..|queue|] == queue;
    forall i | 0 <= i < |p.makers|
      ensures p.deadline <= p.makers[i].terms.expiry && p.quantities[i] > 0
    {
      assert w.legs[i] in w.legs;
    }
    if l :| l in w.legs && w.deadline == l.candidate.order.terms.expiry {
      var i :| 0 <= i < |w.legs| && w.legs[i] == l;
      assert p.deadline == p.makers[i].terms.expiry;
    }
  }

  /** The seller delivers one leg, which the buyer accepts, and which trades as far as the planner knows. */
  predicate LegTrades(input: Input, seller: set<nat>, buyer: set<nat>) {
    exists c: nat | 1 <= c <= 3 :: seller == {c} && c in buyer
                                 && (input.legs.Some? ==> c in input.legs.value && input.legs.value[c].tradable)
  }

  /** On the other side of the branch, resting, its fee cap high enough, at a price within the order's limit. */
  predicate MayTrade(input: Input, o: OrderTerms) {
    var t := input.order.terms;
    && o.branch == t.branch && o.tif == 0 && input.makerBps <= o.maxFeeBps
    && (if t.side == 0 then o.side == 1 && o.price <= t.price && LegTrades(input, o.bases, t.bases)
        else o.side == 0 && o.price >= t.price && LegTrades(input, t.bases, o.bases))
  }

  /** A plan is live, and so is every maker of it, and each is one the order can trade with. */
  lemma PlanIsLive(input: Input, queue: seq<Candidate>)
    requires Planning(input, queue) && AllReported(input) && Queue(input, queue) && PlanOf(input, queue).Answer?
    ensures var p := PlanOf(input, queue).value;
            && p.deadline > input.now
            && forall i | 0 <= i < |p.makers| ::
                 p.makers[i].terms.expiry > input.now && MayTrade(input, p.makers[i].terms)
  {
    hide Walking, Turn, Parses, Floor, Reported, Eligible, Filled, Cost, Ranked, Queue, LegTrades, AllReported;
    WalkIsSound(input, queue, |queue|);
    var w, p := Walked(input, queue, |queue|).value, PlanOf(input, queue).value;
    assert queue[..|queue|] == queue;
    PlanFits(input, queue, w);
    WalkedFrom(input, queue, w);
    forall l | l in w.legs
      ensures l.candidate.order.terms.expiry > input.now && MayTrade(input, l.candidate.order.terms)
    {
      QueueHolds(input, queue, l.candidate);
      EligibleTrades(input, l.candidate);
    }
    forall i | 0 <= i < |p.makers|
      ensures p.makers[i].terms.expiry > input.now && MayTrade(input, p.makers[i].terms)
    {
      assert w.legs[i] in w.legs;
    }
    assert input.order.terms.expiry > input.now by { EntryIsInTime(input); }
  }

  lemma EntryIsInTime(input: Input)
    requires Entry(input).Answer?
    ensures input.order.terms.expiry > input.now
  {
    hide Parses;
  }

  lemma WalkedFrom(input: Input, queue: seq<Candidate>, w: Walk)
    requires input.step > 0 && Walking(input, queue, w)
    ensures forall l | l in w.legs :: l.candidate in queue
  {
    hide LegOk, LegsRanked, Lapses, Kept, Filled, Cost;
  }

  lemma EligibleTrades(input: Input, c: Candidate)
    requires Entry(input).Answer? && input.step > 0 && Reported(input, c) && Eligible(input, c)
    ensures c.order.terms.expiry > input.now && MayTrade(input, c.order.terms)
  {
    TwoSides(c.order);
    TwoSides(input.order);
    var ask, bid := AskOf(input, c), BidOf(input, c);
    assert ask.side == 1 && SingleBase(ask.bases).Some?;
    var base := ask.Collateral();
    assert ask.bases == {base} && base in bid.bases;
  }

  lemma PlanFits(input: Input, queue: seq<Candidate>, w: Walk)
    requires Planning(input, queue) && Walking(input, queue[..|queue|], w)
    ensures w.left + Filled(w.legs) == input.order.terms.quantity && w.quote == Cost(w.legs) && w.left >= 0
    ensures |w.legs| <= input.maxMakers <= 8 && w.deadline <= input.now + 60 && w.deadline <= input.order.terms.expiry
    ensures forall l | l in w.legs :: l.quantity > 0 && w.deadline <= l.candidate.order.terms.expiry
    ensures w.deadline == input.now + 60 || w.deadline == input.order.terms.expiry
            || exists l | l in w.legs :: w.deadline == l.candidate.order.terms.expiry
  {
    hide Floor, DeliveryOf, Cost, Filled, LegsRanked, Kept, Reported, Ranked, Parses;
  }

  lemma WalkedFacts(input: Input, queue: seq<Candidate>, w: Walk)
    requires Planning(input, queue) && Walking(input, queue, w)
    ensures 0 <= w.left && w.left + Filled(w.legs) == input.order.terms.quantity && w.quote == Cost(w.legs)
    ensures |w.legs| <= MAX_MAKERS && w.deadline <= input.order.terms.expiry < 0x8000_0000_0000_0000
    ensures forall l | l in w.legs :: l.quantity > 0
    ensures w.legs != [] ==> input.step <= Filled(w.legs)
    ensures 0 <= Filled(w.legs)
    ensures 0 <= input.makerBps <= MAX_FEE_BPS && 0 <= input.takerBps <= MAX_FEE_BPS && InRange(input.nextSequence)
  {
    hide Floor, DeliveryOf, Cost, LegsRanked, Kept, Reported, Ahead;
    FilledIsPositive(w.legs);
    if w.legs != [] {
      assert w.legs[0] in w.legs;
      MultipleAtLeast(w.legs[0].quantity, input.step);
    }
  }

  lemma {:induction false} FilledIsPositive(legs: seq<Leg>)
    requires forall l | l in legs :: l.quantity > 0
    ensures 0 <= Filled(legs) && (legs != [] ==> legs[0].quantity <= Filled(legs))
  {
    if legs != [] {
      FilledIsPositive(legs[..|legs| - 1]);
      assert legs[|legs| - 1] in legs;
      assert |legs| > 1 ==> legs[..|legs| - 1][0] == legs[0];
    }
  }

  lemma {:induction false} CostIsPositive(legs: seq<Leg>)
    requires forall l | l in legs :: l.quantity > 0
    ensures 0 <= Cost(legs)
  {
    hide Floor;
    if legs != [] {
      CostIsPositive(legs[..|legs| - 1]);
    }
  }
}
