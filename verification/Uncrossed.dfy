/** No order rests across one its plan could not have seen: what the race check means for the orders
    of a book, over whole runs. */
module Uncrossed {
  import opened Exact
  import opened Rules
  import opened Conversion
  import opened State
  import opened Settlement
  import opened InFlight
  import opened Matching
  import opened Chain
  import opened Exchange
  import opened Placing
  import opened Completion
  import opened Protocol
  import opened Aging
  import opened Races
  import H = PlaceHandler

  // ----------------------------------------------------- orders and the history

  /** Where a step's orders come from: an older state of the same order, or this placement. */
  ghost predicate Descends(s: Chain, a: Action, id: Pubkey, b: Book, k: OrderKey)
    requires id in s.books && k in b.orders
  {
    var o := b.orders[k];
    if k in s.books[id].orders then Later(s.books[id].orders[k], o) else
    && a.Place? && a.id == id && k == a.request.Key() && o.terms == a.request.terms && o.terms.branch < 2
    && o.sequence == s.books[id].market.sequence[o.terms.branch]
  }

  lemma SettledIdentity(o: Flight, r: Request, trades: seq<Trade>)
    requires Entered(o.book, r)
    ensures r.Key() in Ended(o, r, trades).book.orders
    ensures var e := Ended(o, r, trades).book.orders[r.Key()];
            e.terms == r.terms && e.sequence == o.book.orders[r.Key()].sequence
  {
    hide SettleAll, OrderTerms.Asset;
  }

  /** The taker's order under its own terms, at the sequence its branch had reached. */
  lemma PlacedOrder(s: Chain, id: Pubkey, r: Request)
    requires Inv(s) && Fillable(s, id, r)
    ensures Ticks(s.books[id].market, r.terms.price) <= U64_MAX && r.terms.branch < 2
    ensures var after := Placed(s, id, r).books[id].orders;
            && r.Key() in after && after[r.Key()].terms == r.terms
            && after[r.Key()].sequence == s.books[id].market.sequence[r.terms.branch]
  {
    hide Inv, Fillable, Ticks, Ended, Trades, Placed, Opened, Entered, Start;
    FillableFacts(s, id, r);
    TicksRecord(s, id, r);
    PlacedOrders(s, id, r);
    TakerOpens(s, id, r);
    SettledIdentity(Start(s, id, r), r, Trades(s, id, r));
  }

  lemma TakerOpens(s: Chain, id: Pubkey, r: Request)
    requires Fillable(s, id, r)
    ensures r.terms.branch < 2
    ensures Start(s, id, r).book.orders[r.Key()].sequence == s.books[id].market.sequence[r.terms.branch]
  {
    hide Fillable, Opened;
    var o := Opened(s, id, r);
  }

  lemma OrdersDescend(s: Chain, a: Action, id: Pubkey, k: OrderKey)
    requires Inv(s) && Can(s, a) && id in s.books && id in After(s, a).books && k in After(s, a).books[id].orders
    ensures Descends(s, a, id, After(s, a).books[id], k)
  {
    hide Inv, Can, After, Retirable, Spent, ClosedState, SamePlacements, Later;
    if a.Place? || a.Cancel? || a.ProcessOrders? {
      OrderStepAges(s, a);
      if id != a.id {
        StillLater(s.books[id].orders[k]);
      } else if k !in s.books[id].orders {
        PlacementDescends(s, a, k);
      }
    } else {
      PlainStepAges(s, a);
      StillLater(s.books[id].orders[k]);
    }
  }

  lemma PlacementDescends(s: Chain, a: Action, k: OrderKey)
    requires Inv(s) && a.Place? && Can(s, a)
    ensures a.id in s.books && a.id in After(s, a).books
    ensures k in After(s, a).books[a.id].orders && k !in s.books[a.id].orders ==>
            Descends(s, a, a.id, After(s, a).books[a.id], k)
  {
    hide Inv, Can, After, Placed, Fillable, Admissible, Ticks, FilledBy, Picks;
    PlaceIs(s, a);
    AdmissibleIsFillable(s, a.id, a.request);
    FillableFacts(s, a.id, a.request);
    PlacedOrder(s, a.id, a.request);
    PlacementFills(s, a.id, a.request);
  }

  /** The record of an order in its branch's history. */
  ghost predicate RecordedIn(o: Order, history: seq<Record>) {
    0 <= o.sequence < |history| && history[o.sequence] == Record(o.terms.price, o.terms.side)
  }

  /** In every reachable state each open order is in the history at its sequence, with its price and
      side. */
  ghost predicate OpenRecorded(states: seq<Chain>, actions: seq<Action>, n: nat, id: Pubkey, k: OrderKey)
    requires |states| == |actions| + 1 && n <= |actions|
  {
    id in states[n].books && k in states[n].books[id].orders && states[n].books[id].orders[k].status == LIVE ==>
      var o := states[n].books[id].orders[k];
      o.terms.branch < 2 && RecordedIn(o, History(states, actions, n, id, o.terms.branch))
  }

  lemma {:induction false} OpenIsRecorded(states: seq<Chain>, actions: seq<Action>, n: nat, id: Pubkey, k: OrderKey)
    requires Run(states, actions) && Initial(states[0]) && n <= |actions|
    ensures OpenRecorded(states, actions, n, id, k)
  {
    hide Inv, Can, After, Step, Ages, Resting, Initial;
    if n == 0 {
      NoBooks(states[0]);
    } else {
      OpenIsRecorded(states, actions, n - 1, id, k);
      RunStep(states, actions, n - 1);
      if id in states[n].books && k in states[n].books[id].orders {
        OrderIsRecorded(states, actions, n, id, k);
      }
    }
  }

  lemma OrderIsRecorded(states: seq<Chain>, actions: seq<Action>, n: nat, id: Pubkey, k: OrderKey)
    requires Run(states, actions) && Initial(states[0]) && 0 < n <= |actions|
    requires Inv(states[n - 1]) && Can(states[n - 1], actions[n - 1])
             && states[n] == After(states[n - 1], actions[n - 1])
    requires OpenRecorded(states, actions, n - 1, id, k)
    requires id in states[n].books && k in states[n].books[id].orders
    ensures OpenRecorded(states, actions, n, id, k)
  {
    hide Inv, Can, After, Step, Resting, Initial;
    var s, a, r := states[n - 1], actions[n - 1], states[n];
    if id !in s.books {
      NewIsEmpty(s, a, id);
    } else {
      OrdersDescend(s, a, id, k);
      if k !in s.books[id].orders && r.books[id].orders[k].status == LIVE {
        NewIsRecorded(states, actions, n, id, k);
      }
    }
  }

  lemma NewIsEmpty(s: Chain, a: Action, id: Pubkey)
    requires Inv(s) && Can(s, a) && id !in s.books && id in After(s, a).books
    ensures After(s, a).books[id].orders == map[]
  {
    hide Inv, Can, After;
    if a.Place? || a.Cancel? || a.ProcessOrders? {
      OrderStepAges(s, a);
    } else {
      PlainStepAges(s, a);
    }
  }

  lemma NewIsRecorded(states: seq<Chain>, actions: seq<Action>, n: nat, id: Pubkey, k: OrderKey)
    requires Run(states, actions) && Initial(states[0]) && 0 < n <= |actions|
    requires id in states[n - 1].books && id in states[n].books && k in states[n].books[id].orders
    requires k !in states[n - 1].books[id].orders && states[n].books[id].orders[k].status == LIVE
    requires Descends(states[n - 1], actions[n - 1], id, states[n].books[id], k)
    ensures var o := states[n].books[id].orders[k];
            o.terms.branch < 2 && RecordedIn(o, History(states, actions, n, id, o.terms.branch))
  {
    hide Step, Initial, RingHolds;
    var o := states[n].books[id].orders[k];
    RingRefinesHistory(states, actions, n - 1, id, o.terms.branch);
    SequenceCounts(states[n - 1].books[id].market, o.terms.branch, History(states, actions, n - 1, id, o.terms.branch));
  }

  lemma SequenceCounts(m: Market, branch: nat, history: seq<Record>)
    requires RingHolds(m, branch, history)
    ensures m.sequence[branch] == |history|
  {
  }

  // ------------------------------------------------------------------ the theorem

  lemma RestingIsRaceFree(s: Chain, id: Pubkey, r: Request)
    requires Inv(s) && Admissible(s, id, r)
    requires id in Placed(s, id, r).books && Resting(Placed(s, id, r).books[id], r)
    ensures r.terms.branch < 2 && Ticks(s.books[id].market, r.terms.price) <= U64_MAX
    ensures RaceFree(RECENT, r.plan.nextSequence, s.books[id].market.sequence[r.terms.branch], r.terms.side,
                     Ticks(s.books[id].market, r.terms.price), RingOf(s.books[id].market, r.terms.branch)).Ok?
  {
    hide Inv, Fillable, Ticks, Ended, Trades, Placed, Opened, Entered, Start, Admissible, RaceFree, RingOf, Settled,
      Steady, Finished, CapsHold, Rests;
    AdmissibleIsFillable(s, id, r);
    PlacedOrders(s, id, r);
    H.AdmissibleWhen(s, id, r);
    FillableFacts(s, id, r);
    var o := Opened(s, id, r);
  }

  /** Whatever rests was not raced: after any placement of any run that leaves its order open, every
      open order of that branch on the other side that its plan could not have seen is priced out of
      its reach: asks above a bid, bids below an ask. */
  lemma RestsUncrossed(states: seq<Chain>, actions: seq<Action>, n: nat, k: OrderKey)
    requires Run(states, actions) && Initial(states[0]) && n < |actions| && actions[n].Place?
    requires var id, r := actions[n].id, actions[n].request;
             && id in states[n + 1].books && r.Key() in states[n + 1].books[id].orders
             && states[n + 1].books[id].orders[r.Key()].status == LIVE
             && k in states[n + 1].books[id].orders && states[n + 1].books[id].orders[k].status == LIVE
    ensures var r, o := actions[n].request, states[n + 1].books[actions[n].id].orders[k];
            o.terms.branch == r.terms.branch && o.sequence >= r.plan.nextSequence ==>
              && (r.terms.side == 0 && o.terms.side == 1 ==> o.terms.price > r.terms.price)
              && (r.terms.side == 1 && o.terms.side == 0 ==> o.terms.price < r.terms.price)
  {
    hide Inv, Can, After, Step, Initial, Ages, Admissible, Placed, RaceFree, RingOf, Ticks, WholeTicks, RecordOf,
      NextPlacement;
    var s, a, id, r := states[n], actions[n], actions[n].id, actions[n].request;
    RunStep(states, actions, n);
    PlaceIs(s, a);
    RestingIsRaceFree(s, id, r);
    PlaceStep(s, a);
    OrdersDescend(s, a, id, k);
    OpenIsRecorded(states, actions, n, id, k);
    RaceCheckIsExact(states, actions, n, id, r.terms.branch, r.plan.nextSequence, r.terms.side, r.terms.price);
  }
}
