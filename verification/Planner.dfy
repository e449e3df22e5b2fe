/** The client's planner: which resting orders a new order is to take, in price-time priority,
    within one transaction, and the check a plan passes before it is signed. */
module Planner {
  import opened Exact
  import opened Rules
  import opened Conversion
  import opened State

  const PLAN_SECONDS := 60

  /** An order as clients exchange it. */
  datatype Wire = Wire(market: Pubkey, owner: Pubkey, terms: OrderTerms)

  datatype OrderId = OrderId(market: Pubkey, key: OrderKey)

  function IdOf(w: Wire): OrderId {
    OrderId(w.market, OrderKey(w.owner, w.terms.salt))
  }

  /** A resting order the indexer reported; an ask's reservation, when it is known. */
  datatype Candidate = Candidate(order: Wire, id: OrderId, remaining: int, sequence: int, reserved: Rules.Option<int>)

  datatype LegState = LegState(scale: u64, multiplier: u64, tradable: bool)

  datatype Input = Input(order: Wire, candidates: seq<Candidate>, now: int, step: int, nextSequence: int,
                         makerBps: int, takerBps: int, legs: Rules.Option<map<nat, LegState>>, maxMakers: int)

  datatype AtomicPlan = AtomicPlan(nextSequence: int, makerBps: int, takerBps: int, makers: seq<Wire>,
                                   quantities: seq<int>,
                                   expectedRemaining: seq<int>, minFill: int, deadline: int, filled: int,
                                     remaining: int,
                                   executionQuote: int, surplus: Rules.Option<seq<bool>>)

  datatype Refusal = UnreadableOrder | InvalidMakerCap | HaltedLeg | InvalidSequence | FeeOutOfRange | InvalidCandidate
                   | TooManyMakers | ConversionFails | QuoteFails | RoundsToZero | FeeCapTooLow

  datatype Answer<+T> = Answer(value: T) | Refused(why: Refusal)

  // ------------------------------------------------------------------ validation

  /** What parsing an order accepts. */
  predicate Parses(w: Wire) {
    var t := w.terms;
    && t.quantity > 0 && t.price > 0 && 0 <= t.expiry < 0x8000_0000_0000_0000
    && (BoundNonce(t.salt).Some? ==> BoundNonce(t.salt).value == t.nonce)
    && t.branch < 2 && t.side < 2 && t.funding < 2 && t.tif < 2
    && t.bases != {} && t.bases <= {1, 2, 3} && (t.side == 1 ==> SingleBase(t.bases).Some?)
    && t.maxFeeBps <= MAX_FEE_BPS
  }

  /** Without live state every leg is assumed tradable. */
  predicate Tradable(input: Input, c: nat) {
    match input.legs
    case None => true
    case Some(legs) => c in legs && legs[c].tradable
  }

  function Entry(input: Input): Answer<()> {
    var t := input.order.terms;
    if !Parses(input.order) then Refused(UnreadableOrder) else
    if !(0 <= input.maxMakers <= MAX_MAKERS) then Refused(InvalidMakerCap) else
    if t.side == 1 && !Tradable(input, t.Collateral()) then Refused(HaltedLeg) else
    if input.step <= 0 || t.quantity % input.step != 0 || t.expiry <= input.now
       || input.nextSequence < 0 || input.nextSequence >= U64_MAX
    then Refused(InvalidSequence) else
    if !(0 <= input.makerBps <= MAX_FEE_BPS && 0 <= input.takerBps <= MAX_FEE_BPS) then Refused(FeeOutOfRange) else
    Answer(())
  }

  /** A candidate of this book, as the indexer must report it. */
  predicate Reported(input: Input, c: Candidate)
    requires input.step > 0
  {
    var t, o := input.order.terms, c.order.terms;
    && Parses(c.order) && c.id == IdOf(c.order) && c.order.market == input.order.market
    && o.branch == t.branch && o.side != t.side && o.tif == 0
    && 0 < c.remaining <= o.quantity && c.remaining % input.step == 0
    && 0 <= c.sequence < input.nextSequence
  }

  /** Every candidate is of this book, and none is named or numbered twice. */
  predicate AllReported(input: Input)
    requires input.step > 0
  {
    && (forall i | 0 <= i < |input.candidates| :: Reported(input, input.candidates[i]))
    && (forall i, j | 0 <= i < j < |input.candidates| ::
          input.candidates[i].id != input.candidates[j].id
            && input.candidates[i].sequence != input.candidates[j].sequence)
  }

  function AskOf(input: Input, c: Candidate): OrderTerms {
    if c.order.terms.side == 1 then c.order.terms else input.order.terms
  }

  function BidOf(input: Input, c: Candidate): OrderTerms {
    if c.order.terms.side == 0 then c.order.terms else input.order.terms
  }

  /** It can trade with the order: an accepted, tradable leg, unexpired, fees within its cap, at a
      crossing price. */
  predicate Eligible(input: Input, c: Candidate) {
    var base := AskOf(input, c).Collateral();
    && BidOf(input, c).Accepts(base) && Tradable(input, base)
    && c.order.terms.expiry > input.now && c.order.terms.maxFeeBps >= input.makerBps
    && (if input.order.terms.side == 0 then c.order.terms.price <= input.order.terms.price
        else c.order.terms.price >= input.order.terms.price)
  }

  // -------------------------------------------------------------- price-time order

  /** Better priced, or as well priced and earlier. */
  predicate Ahead(side: nat, a: Candidate, b: Candidate) {
    var p, q := a.order.terms.price, b.order.terms.price;
    if p != q then (if side == 0 then p < q else p > q) else a.sequence < b.sequence
  }

  predicate Ranked(side: nat, queue: seq<Candidate>) {
    forall i, j | 0 <= i < j < |queue| :: Ahead(side, queue[i], queue[j])
  }

  function EligibleOf(input: Input, n: nat): (cs: seq<Candidate>)
    requires n <= |input.candidates|
  {
    if n == 0 then [] else
    EligibleOf(input, n - 1) + (if Eligible(input, input.candidates[n - 1]) then [input.candidates[n - 1]] else [])
  }

  /** The queue: the eligible candidates, best priced first, earliest first. */
  ghost predicate Queue(input: Input, queue: seq<Candidate>) {
    && Ranked(input.order.terms.side, queue)
    && multiset(queue) == multiset(EligibleOf(input, |input.candidates|))
  }

  lemma {:induction false} EligibleOfHolds(input: Input, n: nat, c: Candidate)
    requires n <= |input.candidates|
    ensures c in EligibleOf(input, n) <==> Eligible(input, c) && exists i | 0 <= i < n :: input.candidates[i] == c
  {
    if n > 0 {
      EligibleOfHolds(input, n - 1, c);
    }
  }

  /** Queued exactly when a candidate is eligible. */
  lemma QueueHolds(input: Input, queue: seq<Candidate>, c: Candidate)
    requires Queue(input, queue)
    ensures c in queue <==> c in input.candidates && Eligible(input, c)
  {
    EligibleOfHolds(input, |input.candidates|, c);
    assert c in queue <==> c in multiset(queue);
    assert c in EligibleOf(input, |input.candidates|) <==> c in multiset(EligibleOf(input, |input.candidates|));
  }

  /** What a list of candidates comes to. */
  function Total(cs: seq<Candidate>, f: Candidate -> int): int {
    if cs == [] then 0 else Total(cs[..|cs| - 1], f) + f(cs[|cs| - 1])
  }

  lemma OneMoreTotal(cs: seq<Candidate>, c: Candidate, f: Candidate -> int)
    ensures Total(cs + [c], f) == Total(cs, f) + f(c)
  {
    assert (cs + [c])[..|cs|] == cs;
  }

  lemma {:induction false} TotalWithout(cs: seq<Candidate>, i: nat, f: Candidate -> int)
    requires i < |cs|
    ensures Total(cs, f) == Total(cs[..i] + cs[i + 1..], f) + f(cs[i])
    decreases |cs|
  {
    var n, rest := |cs| - 1, cs[..i] + cs[i + 1..];
    if i < n {
      TotalWithout(cs[..n], i, f);
      assert rest[..n - 1] == cs[..n][..i] + cs[..n][i + 1..] && rest[n - 1] == cs[n];
    } else {
      assert rest == cs[..n];
    }
  }

  lemma Without(cs: seq<Candidate>, i: nat)
    requires i < |cs|
    ensures multiset(cs[..i] + cs[i + 1..]) == multiset(cs) - multiset{cs[i]}
  {
    assert cs == cs[..i] + [cs[i]] + cs[i + 1..];
  }

  /** It does not depend on their order. */
  lemma {:induction false} TotalPermuted(a: seq<Candidate>, b: seq<Candidate>, f: Candidate -> int)
    requires multiset(a) == multiset(b)
    ensures Total(a, f) == Total(b, f)
    decreases |a|
  {
    assert |multiset(a)| == |a| && |multiset(b)| == |b|;
    if a != [] {
      var n := |a| - 1;
      assert a[n] in multiset(a) && a[n] in multiset(b);
      var i :| 0 <= i < |b| && b[i] == a[n];
      Without(a, n);
      assert a[..n] + a[n + 1..] == a[..n];
      Without(b, i);
      TotalPermuted(a[..n], b[..i] + b[i + 1..], f);
      TotalWithout(b, i, f);
    }
  }

  /** What an order with this much left still reserves or is owed at its own price. */
  function Offer(): Candidate -> int {
    (c: Candidate) => if c.remaining < 0 then 0 else Ceil(c.remaining, c.order.terms.price)
  }

  /** What the eligible candidates offer together. */
  function Offered(input: Input): int {
    Total(EligibleOf(input, |input.candidates|), Offer())
  }

  lemma HeadsAgree(side: nat, a: seq<Candidate>, b: seq<Candidate>)
    requires Ranked(side, a) && Ranked(side, b) && a != [] && b != [] && a[0] in b && b[0] in a
    ensures a[0] == b[0]
  {
    var i :| 0 <= i < |b| && b[i] == a[0];
    var j :| 0 <= j < |a| && a[j] == b[0];
  }

  lemma TailOf(side: nat, a: seq<Candidate>)
    requires Ranked(side, a) && a != []
    ensures Ranked(side, a[1..]) && multiset(a[1..]) == multiset(a) - multiset{a[0]}
    ensures a == [a[0]] + a[1..]
  {
    hide Ahead;
    assert a == [a[0]] + a[1..];
  }

  /** There is one such queue only: priority decides the order of any two candidates. */
  lemma {:induction false} QueueIsUnique(side: nat, a: seq<Candidate>, b: seq<Candidate>)
    requires Ranked(side, a) && Ranked(side, b) && multiset(a) == multiset(b)
    ensures a == b
  {
    hide Ahead, Ranked;
    assert |multiset(a)| == |a| && |multiset(b)| == |b|;
    if a != [] {
      assert a[0] in multiset(b) && b[0] in multiset(a);
      HeadsAgree(side, a, b);
      TailOf(side, a);
      TailOf(side, b);
      QueueIsUnique(side, a[1..], b[1..]);
    }
  }

  lemma InsertedIsRanked(side: nat, queue: seq<Candidate>, i: nat, c: Candidate)
    requires Ranked(side, queue) && i <= |queue| && forall q | q in queue :: q.sequence != c.sequence
    requires forall j | i <= j < |queue| :: Ahead(side, c, queue[j])
    requires i > 0 ==> !Ahead(side, c, queue[i - 1])
    ensures Ranked(side, queue[..i] + [c] + queue[i..])
  {
    hide Ahead;
    var r := queue[..i] + [c] + queue[i..];
    forall j, k | 0 <= j < k < |r|
      ensures Ahead(side, r[j], r[k])
    {
      if k == i {
        assert r[j] == queue[j] && queue[j] in queue && queue[i - 1] in queue;
        FollowsOrNot(side, queue[j], queue[i - 1], c);
      } else if j == i {
        assert r[k] == queue[k - 1];
      } else {
        assert r[j] == queue[if j < i then j else j - 1] && r[k] == queue[if k < i then k else k - 1];
      }
    }
  }

  lemma InsertedIsPermuted(queue: seq<Candidate>, i: nat, c: Candidate)
    requires i <= |queue|
    ensures multiset(queue[..i] + [c] + queue[i..]) == multiset(queue) + multiset{c}
  {
    assert queue == queue[..i] + queue[i..];
  }

  /** Whoever is not behind another is ahead of it, and so is everyone ahead of it. */
  lemma FollowsOrNot(side: nat, a: Candidate, b: Candidate, c: Candidate)
    requires (a == b || Ahead(side, a, b)) && !Ahead(side, c, b) && b.sequence != c.sequence
    ensures Ahead(side, a, c)
  {
  }

  /** Puts a candidate where its priority belongs. */
  method Insert(side: nat, queue: seq<Candidate>, c: Candidate) returns (r: seq<Candidate>)
    requires Ranked(side, queue) && forall q | q in queue :: q.sequence != c.sequence
    ensures Ranked(side, r) && multiset(r) == multiset(queue) + multiset{c}
  {
    hide Ahead, Ranked;
    var i := |queue|;
    while i > 0 && Ahead(side, c, queue[i - 1])
      invariant 0 <= i <= |queue|
      invariant forall j | i <= j < |queue| :: Ahead(side, c, queue[j])
    {
      i := i - 1;
    }
    InsertedIsRanked(side, queue, i, c);
    InsertedIsPermuted(queue, i, c);
    r := queue[..i] + [c] + queue[i..];
  }

  /** The first n candidates are reported well, under these identities and sequences. */
  ghost predicate Checked(input: Input, n: nat, ids: set<OrderId>, sequences: set<int>)
    requires input.step > 0 && n <= |input.candidates|
  {
    && AllReported(input.(candidates := input.candidates[..n]))
    && (forall x :: x in ids <==> exists j | 0 <= j < n :: input.candidates[j].id == x)
    && (forall x :: x in sequences <==> exists j | 0 <= j < n :: input.candidates[j].sequence == x)
  }

  lemma CheckedNext(input: Input, n: nat, ids: set<OrderId>, sequences: set<int>)
    requires input.step > 0 && n < |input.candidates| && Checked(input, n, ids, sequences)
    ensures var c := input.candidates[n];
            && (c.id in ids || c.sequence in sequences || !Reported(input, c) ==> !AllReported(input))
            && (c.id !in ids && c.sequence !in sequences && Reported(input, c)
                ==> Checked(input, n + 1, ids + {c.id}, sequences + {c.sequence}))
  {
    hide Parses;
    var c := input.candidates[n];
    if c.id !in ids && c.sequence !in sequences && Reported(input, c) {
      var next := input.(candidates := input.candidates[..n + 1]);
      forall i, j | 0 <= i < j < |next.candidates|
        ensures next.candidates[i].id != next.candidates[j].id
                && next.candidates[i].sequence != next.candidates[j].sequence
      {
        assert next.candidates[i] == input.candidates[i] && next.candidates[j] == input.candidates[j];
      }
    }
  }

  /** The queue of the first n candidates. */
  ghost predicate QueuedTo(input: Input, n: nat, queue: seq<Candidate>)
    requires n <= |input.candidates|
  {
    Ranked(input.order.terms.side, queue) && multiset(queue) == multiset(EligibleOf(input, n))
  }

  lemma QueuedNext(input: Input, n: nat, queue: seq<Candidate>, after: seq<Candidate>)
    requires n < |input.candidates| && QueuedTo(input, n, queue)
    requires var c := input.candidates[n];
             if Eligible(input, c) then Ranked(input.order.terms.side, after)
                && multiset(after) == multiset(queue) + multiset{c}
             else after == queue
    ensures QueuedTo(input, n + 1, after)
  {
    hide Eligible, Ranked;
  }

  lemma FreshSequence(input: Input, n: nat, queue: seq<Candidate>, sequence: int)
    requires n <= |input.candidates| && QueuedTo(input, n, queue)
    requires forall j | 0 <= j < n :: input.candidates[j].sequence != sequence
    ensures Ranked(input.order.terms.side, queue) && forall q | q in queue :: q.sequence != sequence
  {
    hide Eligible, Ranked;
    forall q | q in queue
      ensures q.sequence != sequence
    {
      assert q in multiset(queue) && q in EligibleOf(input, n);
      EligibleOfHolds(input, n, q);
    }
  }

  /** Checks every candidate and queues the eligible ones. */
  method Enqueue(input: Input) returns (o: Answer<seq<Candidate>>)
    requires input.step > 0
    ensures o.Answer? <==> AllReported(input)
    ensures o.Answer? ==> Queue(input, o.value)
    ensures o.Answer? ==> forall i, j | 0 <= i < j < |o.value| ::
              var c, d := o.value[i], o.value[j];
              && (if input.order.terms.side == 0 then c.order.terms.price <= d.order.terms.price
                  else c.order.terms.price >= d.order.terms.price)
              && (c.order.terms.price == d.order.terms.price ==> c.sequence < d.sequence)
  {
    hide Reported, Eligible, Ahead, Ranked, AllReported, QueuedTo, Queue;
    var ids: set<OrderId>, sequences: set<int> := {}, {};
    var queue := [];
    NothingChecked(input);
    for i := 0 to |input.candidates|
      invariant Checked(input, i, ids, sequences) && QueuedTo(input, i, queue)
    {
      var c := input.candidates[i];
      CheckedNext(input, i, ids, sequences);
      if c.id in ids || c.sequence in sequences || !Reported(input, c) { return Refused(InvalidCandidate); }
      ghost var before := queue;
      if Eligible(input, c) {
        FreshSequence(input, i, queue, c.sequence);
        queue := Insert(input.order.terms.side, queue, c);
      }
      QueuedNext(input, i, before, queue);
      ids, sequences := ids + {c.id}, sequences + {c.sequence};
    }
    QueuedAll(input, queue);
    RankedQueue(input, queue);
    BestIsFirst(input.order.terms.side, queue);
    assert input.(candidates := input.candidates[..|input.candidates|]) == input;
    o := Answer(queue);
  }

  /** Best priced first, earliest first. */
  lemma BestIsFirst(side: nat, queue: seq<Candidate>)
    requires Ranked(side, queue)
    ensures forall i, j | 0 <= i < j < |queue| ::
              && (if side == 0 then queue[i].order.terms.price <= queue[j].order.terms.price
                  else queue[i].order.terms.price >= queue[j].order.terms.price)
              && (queue[i].order.terms.price == queue[j].order.terms.price ==> queue[i].sequence < queue[j].sequence)
  {
    forall i, j | 0 <= i < j < |queue|
      ensures && (if side == 0 then queue[i].order.terms.price <= queue[j].order.terms.price
                  else queue[i].order.terms.price >= queue[j].order.terms.price)
              && (queue[i].order.terms.price == queue[j].order.terms.price ==> queue[i].sequence < queue[j].sequence)
    {
      assert Ahead(side, queue[i], queue[j]);
    }
  }

  lemma NothingChecked(input: Input)
    requires input.step > 0
    ensures Checked(input, 0, {}, {}) && QueuedTo(input, 0, [])
  {
  }

  lemma RankedQueue(input: Input, queue: seq<Candidate>)
    requires Queue(input, queue)
    ensures Ranked(input.order.terms.side, queue)
  {
    hide Ranked;
  }

  lemma QueuedAll(input: Input, queue: seq<Candidate>)
    requires QueuedTo(input, |input.candidates|, queue)
    ensures Queue(input, queue)
  {
    hide Ranked, EligibleOf;
  }
}
