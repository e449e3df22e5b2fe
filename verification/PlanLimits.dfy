/** A book, of a leg that passes its listing checks, on which a remainder rests across a maker that
    could deliver it. */
module PlanLimits {
  import opened Exact
  import opened Rules
  import opened Conversion
  import opened State
  import opened Planner
  import opened Matchmaking
  import opened Priority

  const SALT: Salt := [0, 0, 0, 0, 0, 0, 0, 0, 0, 0, 0, 0, 0, 0, 0, 0, 0, 0, 0, 0, 0, 0, 0, 0, 0, 0, 0, 0, 0, 0, 0, 0]

  function Sample(owner: nat, side: nat, quantity: u64, price: u128): Wire {
    Wire(Pubkey(1), Pubkey(owner), OrderTerms(Pubkey(owner), SALT, quantity, price, 100, 0, 0, 0, side, 0, 0, {1}))
  }

  function Ask(owner: nat, side: nat, quantity: u64, price: u128, sequence: int,
               reserved: Rules.Option<int>): Candidate {
    var w := Sample(owner, side, quantity, price);
    Candidate(w, IdOf(w), quantity, sequence, reserved)
  }

  lemma SampleParses(owner: nat, side: nat, quantity: u64, price: u128)
    requires side < 2 && quantity > 0 && price > 0
    ensures Parses(Sample(owner, side, quantity, price))
    ensures Sample(owner, side, quantity, price).terms.Collateral() == if side == 0 then QUOTE else 1
  {
    assert SALT[0] == 0 && NONCE_BOUND_SALT[0] == 0x50;
    assert SALT[..8][0] == 0;
  }

  function Stepped(input: Input, w: Walk, c: Candidate, amount: u64): Walk
    requires DeliveryOf(input, c, amount).Delivers?
  {
    var d := DeliveryOf(input, c, amount);
    Walk(w.left - amount, w.quote + Floor(amount, c.order.terms.price), Least(c.order.terms.expiry, w.deadline),
         w.legs + [Leg(c, amount, d.refund)], w.known && d.known)
  }

  /** One more turn of a walk that goes on. */
  lemma OneTurn(input: Input, queue: seq<Candidate>, n: nat, w: Walk, amount: u64)
    requires n < |queue| && Sized(queue) && Walked(input, queue, n) == Answer(w) && !Ends(input, w)
             && |w.legs| < input.maxMakers
    requires amount == Least(w.left, queue[n].remaining) && 0 < Floor(amount, queue[n].order.terms.price) <= U64_MAX
    ensures DeliveryOf(input, queue[n], amount).Short? ==> Walked(input, queue, n + 1) == Answer(w)
    ensures DeliveryOf(input, queue[n], amount).Delivers?
            ==> Walked(input, queue, n + 1) == Answer(Stepped(input, w, queue[n], amount))
  {
    hide DeliveryOf, Floor;
    assert queue[n] in queue;
  }

  /** Two eligible candidates in order are their own queue. */
  lemma PairIsQueue(input: Input)
    requires |input.candidates| == 2 && Eligible(input, input.candidates[0]) && Eligible(input, input.candidates[1])
    requires Ahead(input.order.terms.side, input.candidates[0], input.candidates[1])
    ensures Queue(input, input.candidates)
  {
    hide Eligible, Ahead;
    var c, d := input.candidates[0], input.candidates[1];
    assert EligibleOf(input, 1) == [c] && EligibleOf(input, 2) == [c, d];
    assert input.candidates == [c, d];
  }

  lemma PairIsReported(input: Input)
    requires |input.candidates| == 2 && input.step > 0
    requires Reported(input, input.candidates[0]) && Reported(input, input.candidates[1])
    requires input.candidates[0].id != input.candidates[1].id
             && input.candidates[0].sequence != input.candidates[1].sequence
    ensures AllReported(input)
  {
    hide Reported;
  }

  // ------------------------------------------------------ what a remainder may cross

  const UNIT_PRICE: u128 := 1_000_000_000_000_000_000

  /** 1.25 as binary64 bits: the leg's multiplier at its listing and when the asks were placed. */
  const FIVE_QUARTERS: u64 := 0x3FF4_0000_0000_0000

  const SCALE: u64 := 10

  /** A bid for five; an ask of four that reserved 32 units at 1.25, an ask of four behind it that
      reserved 40 at 1.0. The multiplier is back at 1.0, the lower edge of the band. */
  const PARTIAL := Input(Sample(2, 0, 5, UNIT_PRICE),
                         [Ask(3, 1, 4, UNIT_PRICE, 0, Some(32)), Ask(4, 1, 4, UNIT_PRICE, 1, Some(40))],
                         0, 1, 2, 0, 0, Some(map[1 := LegState(SCALE, UNIT_MULTIPLIER, true)]), 8)

  lemma UnitConverts(quantity: u64)
    requires quantity <= 1000
    ensures BaseRaw(quantity, SCALE, UNIT_MULTIPLIER, false) == Ok(10 * quantity)
  {
    Pow2Of52(52);
    assert MultiplierParts(UNIT_MULTIPLIER) == Ok(Parts(Pow2(52), 52));
    FloorOfMultiple(10 * quantity, Pow2(52));
  }

  lemma FiveQuartersConverts(quantity: u64, up: bool)
    requires quantity <= 1000
    ensures BaseRaw(quantity, SCALE, FIVE_QUARTERS, up) == Ok(8 * quantity)
  {
    Pow2Of52(52);
    var mantissa := 0x14_0000_0000_0000;
    assert MultiplierParts(FIVE_QUARTERS) == Ok(Parts(mantissa, 52));
    assert quantity * SCALE * Pow2(52) == 8 * quantity * mantissa;
    FloorOfMultiple(8 * quantity, mantissa);
  }

  /** The leg can be listed at 1.25, where an ask of four reserves 32 units, and 1.0 is in its band. */
  lemma PartialIsListable()
    ensures ListingChecks(1000, PARTIAL.step, SCALE, FIVE_QUARTERS)
    ensures BaseRaw(4, SCALE, FIVE_QUARTERS, true) == Ok(32)
    ensures WithinBand(FIVE_QUARTERS, UNIT_MULTIPLIER) == Ok(true)
  {
    hide BaseRaw, WithinBand;
    FiveQuartersConverts(1000, true);
    FiveQuartersConverts(1, false);
    FiveQuartersConverts(4, true);
    OneIsInBand();
  }

  lemma OneIsInBand()
    ensures WithinBand(FIVE_QUARTERS, UNIT_MULTIPLIER) == Ok(true)
  {
    Pow2Of52(52);
    assert MultiplierParts(FIVE_QUARTERS) == Ok(Parts(0x14_0000_0000_0000, 52));
    assert MultiplierParts(UNIT_MULTIPLIER) == Ok(Parts(Pow2(52), 52));
  }

  lemma PartialIsPlanned()
    ensures Planning(PARTIAL, PARTIAL.candidates) && AllReported(PARTIAL) && Queue(PARTIAL, PARTIAL.candidates)
  {
    hide Parses, AllReported, Queue, SingleBase, BoundNonce, OrderTerms.Collateral;
    SampleParses(2, 0, 5, UNIT_PRICE);
    SampleParses(3, 1, 4, UNIT_PRICE);
    SampleParses(4, 1, 4, UNIT_PRICE);
    PairIsReported(PARTIAL);
    PairIsQueue(PARTIAL);
  }

  lemma PartialDelivers()
    ensures DeliveryOf(PARTIAL, PARTIAL.candidates[0], 4) == Short
    ensures DeliveryOf(PARTIAL, PARTIAL.candidates[0], 1).Delivers?
    ensures DeliveryOf(PARTIAL, PARTIAL.candidates[1], 4) == Delivers(false, true)
  {
    hide Parses, BaseRaw;
    SampleParses(3, 1, 4, UNIT_PRICE);
    SampleParses(4, 1, 4, UNIT_PRICE);
    UnitConverts(4);
    UnitConverts(1);
  }

  /** A candidate is passed over for what it was to deliver at its turn. What is left to rest may be
      less, and then cross a maker that could deliver it. */
  lemma RemainderMayCrossAPassedMaker()
    ensures Resting(PARTIAL, PARTIAL.candidates) && LeftAt(PARTIAL, PARTIAL.candidates, 2) == 1
    ensures PARTIAL.candidates[0] in PARTIAL.candidates && Eligible(PARTIAL, PARTIAL.candidates[0])
    ensures RestsAcross(PARTIAL, PARTIAL.candidates, PARTIAL.candidates[0])
  {
    hide Parses, DeliveryOf, Turn, Walking, Queue, Reported, Eligible;
    PartialIsPlanned();
    PartialDelivers();
    var c, d := PARTIAL.candidates[0], PARTIAL.candidates[1];
    assert Floor(4, UNIT_PRICE) == 4;
    var start := Walk(5, 0, 60, [], true);
    assert Walked(PARTIAL, PARTIAL.candidates, 0) == Answer(start);
    OneTurn(PARTIAL, PARTIAL.candidates, 0, start, 4);
    OneTurn(PARTIAL, PARTIAL.candidates, 1, start, 4);
    assert Walked(PARTIAL, PARTIAL.candidates, 2).value.legs == [Leg(d, 4, false)];
    QueueHolds(PARTIAL, PARTIAL.candidates, c);
  }
}
