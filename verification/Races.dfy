/** The ring of recent placements refines the whole placement history of a run: a resting
    order is refused exactly when an order it could not have seen crosses its price. */
module Races {
  import opened Exact
  import opened Rules
  import opened Sums
  import opened Conversion
  import opened State
  import opened Settlement
  import opened InFlight
  import opened Matching
  import opened Chain
  import opened Exchange
  import opened Placing
  import opened Completion
  import opened Positions
  import opened Releases
  import opened Custody
  import opened Pools
  import opened Governance
  import opened Protocol
  import opened Aging

  /** A placement as the history remembers it: its limit price, and its side if it rested. */
  datatype Record = Record(price: u128, side: nat)

  ghost function RecordOf(after: Chain, id: Pubkey, r: Request): Record
    requires id in after.books
  {
    Record(r.terms.price, if Resting(after.books[id], r) then r.terms.side else SIDE_NONE)
  }

  predicate PlacesIn(a: Action, id: Pubkey, branch: nat) {
    a.Place? && a.id == id && a.request.terms.branch == branch
  }

  /** Every placement of the first n steps of a run in one branch of a market, oldest first. */
  ghost function History(states: seq<Chain>, actions: seq<Action>, n: nat, id: Pubkey, branch: nat): seq<Record>
    requires |states| == |actions| + 1 && n <= |actions|
  {
    if n == 0 then [] else
    var before := History(states, actions, n - 1, id, branch);
    if PlacesIn(actions[n - 1], id, branch) && id in states[n].books
    then before + [RecordOf(states[n], id, actions[n - 1].request)]
    else before
  }

  /** The ring's slot of a record. */
  function InTicks(m: Market, record: Record): Placement
    requires Ticks(m, record.price) <= U64_MAX
  {
    Placement(Ticks(m, record.price), record.side)
  }

  /** The branch has as many placements as its sequence says, and the ring holds the last ones. */
  ghost predicate RingHolds(m: Market, branch: nat, history: seq<Record>) {
    && branch < 2 && m.sequence[branch] == |history|
    && (forall q | 0 <= q < |history| :: Ticks(m, history[q].price) <= U64_MAX && WholeTicks(m, history[q].price))
    && (forall q | 0 <= q < |history| && |history| - RECENT <= q ::
          m.recent[branch * RECENT + q % RECENT] == InTicks(m, history[q]))
  }

  predicate WholeTicks(m: Market, price: u128) {
    m.terms.caps.tick > 0 && price % m.terms.caps.tick == 0
  }

  // ----------------------------------------------------------- what placing records

  /** The market after one more placement in a branch: the next sequence, in its slot. */
  ghost predicate NextPlacement(m: Market, n: Market, branch: nat, record: Record) {
    && branch < 2 && m.sequence[branch] < U64_MAX && Ticks(m, record.price) <= U64_MAX
    && n == m.(sequence := m.sequence[branch := m.sequence[branch] + 1],
               recent := m.recent[branch * RECENT + m.sequence[branch] % RECENT := InTicks(m, record)])
  }

  /** Each placement takes its branch's next sequence and overwrites exactly that slot. */
  lemma PlacedMarket(s: Chain, id: Pubkey, r: Request)
    requires Inv(s) && Admissible(s, id, r)
    ensures Ticks(s.books[id].market, r.terms.price) <= U64_MAX
    ensures var after := Placed(s, id, r);
            NextPlacement(s.books[id].market, after.books[id].market, r.terms.branch, RecordOf(after, id, r))
  {
    hide Inv, Fillable, Ticks, Admissible, Steady, Queued, Ended, Opened, Trades, Entered, FlushAll, PutBack, Framed,
      AllFlushed, Ledgers.Liability;
    AdmissibleIsFillable(s, id, r);
    FillableFacts(s, id, r);
    TicksRecord(s, id, r);
    var o, trades := Start(s, id, r), Trades(s, id, r);
    OpenedSequence(s, id, r);
    SameTicks(s.books[id].market, o.book.market, r.terms.price);
    FlushKeepsOrders(Closing(s, id, r), r.frames);
  }

  lemma OpenedSequence(s: Chain, id: Pubkey, r: Request)
    requires Fillable(s, id, r)
    ensures r.terms.branch < 2 && s.books[id].market.sequence[r.terms.branch] < U64_MAX
    ensures var m := s.books[id].market;
            Opened(s, id, r).market == m.(sequence := m.sequence[r.terms.branch := m.sequence[r.terms.branch] + 1])
  {
    hide Fillable, Opened;
    FillableFacts(s, id, r);
  }

  lemma NextRing(m: Market, n: Market, branch: nat, other: nat, history: seq<Record>, record: Record)
    requires NextPlacement(m, n, branch, record) && WholeTicks(m, record.price) && RingHolds(m, other, history)
    ensures RingHolds(n, other, if other == branch then history + [record] else history)
  {
    hide Ticks, WholeTicks;
    SameTicks(m, n, record.price);
    var after := if other == branch then history + [record] else history;
    forall q | 0 <= q < |after|
      ensures Ticks(n, after[q].price) <= U64_MAX && WholeTicks(n, after[q].price)
      ensures |after| - RECENT <= q ==> n.recent[other * RECENT + q % RECENT] == InTicks(n, after[q])
    {
      SameTicks(m, n, after[q].price);
      SameWhole(m, n, after[q].price);
      if q < |history| && other == branch && |after| - RECENT <= q {
        SlotsDiffer(q, |history|);
      }
    }
  }

  lemma SameWhole(m: Market, n: Market, price: u128)
    requires m.terms == n.terms
    ensures WholeTicks(m, price) == WholeTicks(n, price)
  {
  }

  /** Two of any sixteen successive sequences have different slots. */
  lemma SlotsDiffer(q: nat, r: nat)
    requires q < r < q + RECENT
    ensures q % RECENT != r % RECENT
  {
  }

  lemma SameRing(m: Market, n: Market, branch: nat, history: seq<Record>)
    requires SamePlacements(m, n) && RingHolds(m, branch, history)
    ensures RingHolds(n, branch, history)
  {
    hide Ticks, WholeTicks;
    forall q | 0 <= q < |history|
      ensures Ticks(n, history[q].price) <= U64_MAX && WholeTicks(n, history[q].price)
      ensures Ticks(n, history[q].price) == Ticks(m, history[q].price)
    {
      SameTicks(m, n, history[q].price);
      SameWhole(m, n, history[q].price);
    }
  }

  lemma PlacedWhole(s: Chain, id: Pubkey, r: Request)
    requires Inv(s) && Admissible(s, id, r)
    ensures WholeTicks(s.books[id].market, r.terms.price)
  {
    hide Inv, Fillable, Ticks, Admissible, Entry, TermsShape, FramesPresented, LegOpen, BookOk;
    AdmissibleIsFillable(s, id, r);
    FillableFacts(s, id, r);
    EntryFacts(s, id, r);
    OrderTicks(s.books[id].market, r.terms);
  }

  lemma OrderTicks(m: Market, t: OrderTerms)
    requires m.terms.caps.ValidateOrder(t.quantity, t.price).Ok?
    ensures WholeTicks(m, t.price)
  {
  }

  /** How one step moves a market's placements. */
  lemma StepPlacements(s: Chain, a: Action, id: Pubkey)
    requires Inv(s) && Can(s, a)
    ensures id in s.books ==> id in After(s, a).books
    ensures id in s.books && !(a.Place? && a.id == id) ==>
              SamePlacements(s.books[id].market, After(s, a).books[id].market)
    ensures a.Place? && a.id == id ==>
              && id in s.books && id in After(s, a).books && WholeTicks(s.books[id].market, a.request.terms.price)
              && NextPlacement(s.books[id].market, After(s, a).books[id].market, a.request.terms.branch,
                               RecordOf(After(s, a), id, a.request))
    ensures id !in s.books && id in After(s, a).books ==> After(s, a).books[id].market.sequence == [0, 0]
  {
    hide Inv, Can, After, BookAges, NextPlacement, WholeTicks, RecordOf, ClosedState;
    if a.Place? || a.Cancel? || a.ProcessOrders? {
      OrderStepAges(s, a);
      if a.Place? && a.id == id {
        PlaceStep(s, a);
      }
      CanIsKnown(s, a);
    } else {
      PlainStepAges(s, a);
    }
  }

  lemma CanIsKnown(s: Chain, a: Action)
    requires Inv(s) && Can(s, a) && (a.Place? || a.Cancel? || a.ProcessOrders?)
    ensures a.id in s.books
  {
    hide Inv, Admissible;
    if a.Place? {
      PlaceIs(s, a);
    }
  }

  lemma PlaceStep(s: Chain, a: Action)
    requires Inv(s) && a.Place? && Can(s, a)
    ensures a.id in s.books && a.id in After(s, a).books && WholeTicks(s.books[a.id].market, a.request.terms.price)
    ensures NextPlacement(s.books[a.id].market, After(s, a).books[a.id].market, a.request.terms.branch,
                          RecordOf(After(s, a), a.id, a.request))
  {
    hide Inv, Can, After, Admissible, Placed, NextPlacement, RecordOf, WholeTicks, Ticks;
    PlaceIs(s, a);
    PlacedMarket(s, a.id, a.request);
    PlacedWhole(s, a.id, a.request);
  }

  // --------------------------------------------------------------- refinement

  lemma EmptyRing(m: Market, branch: nat)
    requires m.sequence == [0, 0] && branch < 2
    ensures RingHolds(m, branch, [])
  {
  }

  /** In every reachable state the ring of each branch holds its last placements, and before a
      market exists it has no history. */
  lemma {:induction false} RingRefinesHistory(states: seq<Chain>, actions: seq<Action>, n: nat, id: Pubkey, branch: nat)
    requires Run(states, actions) && Initial(states[0]) && n <= |actions| && branch < 2
    ensures var history := History(states, actions, n, id, branch);
            if id in states[n].books then RingHolds(states[n].books[id].market, branch, history) else history == []
  {
    hide Inv, Can, After, Step, Ages, NextPlacement, RingHolds, SamePlacements, WholeTicks, Resting;
    if n == 0 {
      NoBooks(states[0]);
    } else {
      hide Initial;
      RingRefinesHistory(states, actions, n - 1, id, branch);
      RunStep(states, actions, n - 1);
      var s, a, r := states[n - 1], actions[n - 1], states[n];
      StepPlacements(s, a, id);
      var before := History(states, actions, n - 1, id, branch);
      if id !in s.books {
        if id in r.books {
          EmptyRing(r.books[id].market, branch);
        }
      } else if a.Place? && a.id == id {
        NextRing(s.books[id].market, r.books[id].market, a.request.terms.branch, branch, before,
                 RecordOf(r, id, a.request));
      } else {
        SameRing(s.books[id].market, r.books[id].market, branch, before);
      }
    }
  }

  lemma NoBooks(s: Chain)
    requires Initial(s)
    ensures s.books == map[]
  {
  }

  /** Comparing whole ticks is comparing prices. */
  lemma TicksCompare(m: Market, p: u128, q: u128)
    requires WholeTicks(m, p) && WholeTicks(m, q)
    ensures Ticks(m, p) <= Ticks(m, q) <==> p <= q
  {
    var t := m.terms.caps.tick;
    assert p == Ticks(m, p) * t && q == Ticks(m, q) * t;
    if Ticks(m, p) <= Ticks(m, q) {
      MulMono(Ticks(m, p), Ticks(m, q), t);
    } else {
      MulMono(Ticks(m, q) + 1, Ticks(m, p), t);
      assert (Ticks(m, q) + 1) * t == Ticks(m, q) * t + t;
    }
  }

  /** The placement at a sequence of the window, as the ring has it. */
  lemma RingEntry(m: Market, branch: nat, history: seq<Record>, q: nat)
    requires RingHolds(m, branch, history) && q < |history| <= q + RECENT
    ensures RingOf(m, branch)[q % RECENT] == InTicks(m, history[q])
  {
    hide Ticks, WholeTicks;
  }

  /** The race check accepts exactly when the plan is at most a window old and nothing placed since,
      anywhere in the history of the run, rests at a price the order reaches: no ask at or below a bid,
      no bid at or above an ask. */
  lemma RaceCheckIsExact(states: seq<Chain>, actions: seq<Action>, n: nat, id: Pubkey, branch: nat,
                         planned: u64, side: nat, price: u128)
    requires Run(states, actions) && Initial(states[0]) && n <= |actions| && branch < 2
    requires id in states[n].books && WholeTicks(states[n].books[id].market, price)
    ensures var m, history := states[n].books[id].market, History(states, actions, n, id, branch);
            && m.sequence[branch] == |history|
            && (RaceFree(RECENT, planned, m.sequence[branch], side, Ticks(m, price), RingOf(m, branch)).Ok?
                <==>
                && planned <= |history| <= planned + 16
                && forall q | planned <= q < |history| ::
                     && (side == 0 && history[q].side == 1 ==> price < history[q].price)
                     && (side == 1 && history[q].side == 0 ==> price > history[q].price))
  {
    hide Step, Initial, History, Ticks, WholeTicks;
    RingRefinesHistory(states, actions, n, id, branch);
    var m, history := states[n].books[id].market, History(states, actions, n, id, branch);
    if planned <= |history| <= planned + RECENT {
      forall q | planned <= q < |history|
        ensures RingOf(m, branch)[q % RECENT] == InTicks(m, history[q])
        ensures Ticks(m, price) <= Ticks(m, history[q].price) <==> price <= history[q].price
        ensures Ticks(m, price) >= Ticks(m, history[q].price) <==> price >= history[q].price
      {
        RingEntry(m, branch, history, q);
        TicksCompare(m, price, history[q].price);
        TicksCompare(m, history[q].price, price);
      }
    }
  }
}
