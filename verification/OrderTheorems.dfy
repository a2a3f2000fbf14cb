/** Whole-run results about stock, orders and idempotency keys. */
module OrderTheorems {
  import opened Wrappers
  import opened JsText
  import opened Fingerprint
  import opened Sums
  import opened OrderMachine
  import opened OrderInvariant
  import opened OrderSteps

  // ----- What no step changes

  ghost predicate SameCalls(s: State, s': State)
  {
    && s'.initial == s.initial
    && s'.clients.Keys == s.clients.Keys
    && forall c :: c in s.clients ==> s'.clients[c].call == s.clients[c].call
  }

  lemma StepKeepsCalls(s: State, c: ClientId, s': State)
    requires StepOf(s, c, s')
    ensures SameCalls(s, s') && s.history <= s'.history && Confined(s, c, s')
    ensures forall d :: d in s.clients && d != c ==> s'.clients[d] == s.clients[d]
  {}

  lemma NextKeepsCalls(s: State, s': State)
    requires Next(s, s')
    ensures SameCalls(s, s') && s.history <= s'.history
  {
    var c :| StepOf(s, c, s');
    StepKeepsCalls(s, c, s');
  }

  lemma CallsStep(states: seq<State>, i: nat)
    requires Run(states) && i + 1 < |states|
    ensures SameCalls(states[i], states[i + 1]) && states[i].history <= states[i + 1].history
  {
    assert StepAt(states, i);
    NextKeepsCalls(states[i], states[i + 1]);
  }

  lemma {:induction false} RunKeepsCalls(states: seq<State>, i: nat, j: nat)
    requires Run(states) && i <= j < |states|
    ensures SameCalls(states[i], states[j]) && states[i].history <= states[j].history
  {
    if i < j {
      RunKeepsCalls(states, i, j - 1);
      CallsStep(states, j - 1);
    }
  }

  // ----- Conservation

  /** The orders that got their processing record during the run. */
  function Processed(s: State): set<Text> { s.db.processing - s.initial.processing }

  lemma SoldSinceStart(s: State, product: Text, unit: bool)
    requires Tables(s)
    ensures Sum(s.db.processing, OrderWeight(s.db, product, unit))
            == Sum(s.initial.processing, OrderWeight(s.initial, product, unit))
               + Sum(Processed(s), OrderWeight(s.db, product, unit))
  {
    SumUnion(s.initial.processing, Processed(s), OrderWeight(s.db, product, unit));
    assert s.initial.processing + Processed(s) == s.db.processing;
    SumAgrees(s.initial.processing, OrderWeight(s.initial, product, unit), OrderWeight(s.db, product, unit));
  }

  /**
   With every kind of client in the run, each product's stock is its initial stock less what the
   orders with a processing record and the standalone reservations took, and its version counts them.
   */
  lemma StockConserved(states: seq<State>, i: nat, product: Text)
    requires Run(states) && i < |states| && product in states[i].initial.products
    ensures var s := states[i];
            && product in s.db.products
            && s.db.products[product].stock >= 0
            && s.initial.products[product].stock
               == s.db.products[product].stock
                  + Sum(Processed(s), OrderWeight(s.db, product, false)) + Standalone(s.history, product).0
            && s.db.products[product].version
               == s.initial.products[product].version
                  + Sum(Processed(s), OrderWeight(s.db, product, true)) + Standalone(s.history, product).1
  {
    RunKeeps(states, i);
    SoldSinceStart(states[i], product, false);
    SoldSinceStart(states[i], product, true);
  }

  /** An order committed in the run has a processing record exactly if an atomic call committed it. */
  lemma ProcessingRecords(states: seq<State>, i: nat, id: Text)
    requires Run(states) && i < |states|
    requires id in states[i].db.orders && id !in states[i].initial.orders
    ensures exists c :: Wrote(states[i], c, id)
                        && (id in Processed(states[i]) <==> states[i].clients[c].call.AtomicOrder?)
  {
    RunKeeps(states, i);
    var c :| Wrote(states[i], c, id);
  }

  ghost predicate AtomicOnly(s: State)
  {
    forall c :: c in s.clients ==> s.clients[c].call.AtomicOrder?
  }

  lemma {:induction false} NothingStandalone(h: seq<Entry>, product: Text)
    requires forall i :: 0 <= i < |h| ==> h[i].order.Some?
    ensures Standalone(h, product) == (0, 0)
  {
    if h != [] {
      NothingStandalone(h[..|h| - 1], product);
    }
  }

  lemma AtomicHistory(s: State, product: Text)
    requires AtomicOnly(s) && Entries(s)
    ensures Standalone(s.history, product) == (0, 0)
  {
    forall k | 0 <= k < |s.history| ensures s.history[k].order.Some? {
      assert EntryOk(s, s.history[k]);
    }
    NothingStandalone(s.history, product);
  }

  /** The orders committed in the run. */
  function Committed(s: State): set<Text> { s.db.orders.Keys - s.initial.orders.Keys }

  lemma AllProcessed(s: State)
    requires AtomicOnly(s) && Tables(s) && Provenance(s)
    ensures Processed(s) == Committed(s)
  {
    forall id | id in Committed(s) ensures id in s.db.processing {
      var c :| Wrote(s, c, id);
    }
  }

  /**
   With atomic clients only: the orders committed in the run are exactly those that got their
   processing record, their quantities are what left the stock, and the version counts them.
   */
  lemma AtomicOrdersConserve(states: seq<State>, i: nat, product: Text)
    requires Run(states) && i < |states| && product in states[i].initial.products
    requires AtomicOnly(states[0])
    ensures var s := states[i];
            && Processed(s) == Committed(s)
            && product in s.db.products
            && s.db.products[product].stock >= 0
            && s.initial.products[product].stock
               == s.db.products[product].stock + Sum(Committed(s), OrderWeight(s.db, product, false))
            && s.db.products[product].version
               == s.initial.products[product].version + Sum(Committed(s), OrderWeight(s.db, product, true))
  {
    RunKeeps(states, i);
    RunKeepsCalls(states, 0, i);
    assert AtomicOnly(states[i]);
    StockConserved(states, i, product);
    AtomicHistory(states[i], product);
    AllProcessed(states[i]);
  }

  // ----- A sequential history

  lemma {:induction false} ReplayCounts(products: map<Text, Product>, h: seq<Entry>, product: Text)
    requires Replay(products, h).Some? && product in products
    ensures product in Replay(products, h).value
    ensures Replay(products, h).value[product].version == products[product].version + Count(h, product)
  {
    if h != [] {
      ReplayCounts(products, h[..|h| - 1], product);
    }
  }

  /**
   Optimistic, locked and atomic reservations together form a sequential history: made one at a
   time in commit order, each finds enough stock, they lead from the initial products to the
   committed ones, and a product's version is its initial version plus the number made on it.
   */
  lemma ReservationsSerial(states: seq<State>, i: nat)
    requires Run(states) && i < |states|
    ensures var s := states[i];
            && Replay(s.initial.products, s.history) == Some(s.db.products)
            && (forall product :: product in s.initial.products ==>
                  product in s.db.products
                  && s.db.products[product].version == s.initial.products[product].version + Count(s.history, product))
  {
    var s := states[i];
    RunKeeps(states, i);
    forall product | product in s.initial.products
      ensures product in s.db.products
      ensures s.db.products[product].version == s.initial.products[product].version + Count(s.history, product)
    {
      ReplayCounts(s.initial.products, s.history, product);
    }
  }

  // ----- Idempotency

  ghost predicate ReturnedBy(s: State, c: ClientId, o: Order)
  {
    c in s.clients && s.clients[c].pc == Done(Returned(o))
  }

  /** Whatever services they use, all successful calls with one key return the same committed order. */
  lemma OneOrderPerKey(states: seq<State>, i: nat, c: ClientId, o: Order, d: ClientId, o': Order)
    requires Run(states) && i < |states|
    requires ReturnedBy(states[i], c, o) && ReturnedBy(states[i], d, o')
    ensures var s := states[i];
            && IsOrder(s.clients[c].call) && IsOrder(s.clients[d].call)
            && CommittedFor(s.db, s.clients[c].call.input, o)
            && (s.clients[c].call.input.key == s.clients[d].call.input.key ==>
                  o == o' && InputFingerprint(s.clients[c].call.input) == InputFingerprint(s.clients[d].call.input))
  {
    RunKeeps(states, i);
    assert ClientAt(states[i], c) && ClientAt(states[i], d);
  }

  lemma NextKeepsOrders(s: State, s': State)
    requires Inv(s) && Next(s, s')
    ensures forall id :: id in s.db.orders ==> id in s'.db.orders && s'.db.orders[id] == s.db.orders[id]
  {
    var c :| StepOf(s, c, s');
    StepKeepsOrders(s, c, s');
  }

  lemma OrdersStep(states: seq<State>, i: nat, id: Text)
    requires Run(states) && i + 1 < |states| && id in states[i].db.orders
    ensures id in states[i + 1].db.orders && states[i + 1].db.orders[id] == states[i].db.orders[id]
  {
    RunKeeps(states, i);
    assert StepAt(states, i);
    NextKeepsOrders(states[i], states[i + 1]);
  }

  lemma {:induction false} OrderStays(states: seq<State>, i: nat, j: nat, id: Text)
    requires Run(states) && i <= j < |states| && id in states[i].db.orders
    ensures id in states[j].db.orders && states[j].db.orders[id] == states[i].db.orders[id]
  {
    if i < j {
      OrderStays(states, i, j - 1, id);
      OrdersStep(states, j - 1, id);
    }
  }

  /** A committed order is never changed or removed, and nothing else is ever committed under its key. */
  lemma OrdersPermanent(states: seq<State>, i: nat, j: nat, id: Text, other: Text)
    requires Run(states) && i <= j < |states| && id in states[i].db.orders
    ensures id in states[j].db.orders && states[j].db.orders[id] == states[i].db.orders[id]
    ensures other in states[j].db.orders && states[j].db.orders[other].key == states[i].db.orders[id].key
            ==> other == id
  {
    OrderStays(states, i, j, id);
    RunKeeps(states, j);
  }

  /** A statement changes the tables by its effects, whether or not its answer arrives. */
  lemma StepApplies(s: State, c: ClientId, s': State)
    requires StepOf(s, c, s')
    ensures s'.db == s.db || (Enabled(s, c) && s'.db == Apply(s.db, ProductOf(s.clients[c].call), Effects(s, c)))
  {
    if s' == Advance(s, c) && !Commits(s.clients[c].pc) {
      assert s'.db == s.db;
    }
  }

  lemma ApplyOrders(db: Database, call: Call, w: Writes)
    requires WritesOk(db, call, w)
    ensures var orders := Apply(db, ProductOf(call), w).orders;
            && orders == (if w.order.Some? then db.orders[call.id := RowOf(call)] else db.orders)
            && forall id :: id in db.orders ==> id in orders && orders[id] == db.orders[id]
  {}

  /** The orders table changes only by the rows that `Effects` commits. */
  lemma StepKeepsOrders(s: State, c: ClientId, s': State)
    requires Inv(s) && StepOf(s, c, s')
    ensures s'.db.orders == s.db.orders
            || (Effects(s, c).order.Some? && IsOrder(s.clients[c].call)
                && s'.db.orders == s.db.orders[s.clients[c].call.id := RowOf(s.clients[c].call)])
    ensures forall id :: id in s.db.orders ==> id in s'.db.orders && s'.db.orders[id] == s.db.orders[id]
  {
    StepApplies(s, c, s');
    if s'.db != s.db {
      EffectsAllowed(s, c);
      ApplyOrders(s.db, s.clients[c].call, Effects(s, c));
    }
  }

  lemma RefusedTakesNothing(s: State, c: ClientId, id: Text, e: Entry)
    requires OrdersIndexed(s.db) && EntryOk(s, e) && e.client == c && c in s.clients && IsOrder(s.clients[c].call)
    requires id in s.db.orders && s.db.orders[id].key == s.clients[c].call.input.key
    ensures StoredFingerprint(s.db.orders[id]) == InputFingerprint(s.clients[c].call.input)
  {
    var call := s.clients[c].call;
    assert s.db.orders[call.id] == RowOf(call);
    assert s.db.orders[call.id].key == call.input.key;
    assert id == call.id;
  }

  lemma RefusedReturnsNothing(db: Database, input: Input, id: Text, o: Order)
    requires OrdersIndexed(db) && CommittedFor(db, input, o)
    requires id in db.orders && db.orders[id].key == input.key
    ensures StoredFingerprint(db.orders[id]) == InputFingerprint(input)
  {
    assert o.id == id;
  }

  /** A request whose key is committed with another fingerprint gets no order and takes no stock. */
  lemma ReusedKeyRefused(states: seq<State>, i: nat, c: ClientId, id: Text, o: Order, k: nat)
    requires Run(states) && i < |states|
    requires c in states[i].clients && IsOrder(states[i].clients[c].call)
    requires id in states[i].db.orders
    requires states[i].db.orders[id].key == states[i].clients[c].call.input.key
    requires StoredFingerprint(states[i].db.orders[id]) != InputFingerprint(states[i].clients[c].call.input)
    ensures !ReturnedBy(states[i], c, o)
    ensures k < |states[i].history| ==> states[i].history[k].client != c
  {
    var s := states[i];
    RunKeeps(states, i);
    if ReturnedBy(s, c, o) {
      assert ClientAt(s, c);
      RefusedReturnsNothing(s.db, s.clients[c].call.input, id, o);
    }
    if k < |s.history| && s.history[k].client == c {
      assert EntryOk(s, s.history[k]);
      RefusedTakesNothing(s, c, id, s.history[k]);
    }
  }

  /** However often a key is retried, its order is reserved for at most once. */
  lemma OneReservationPerKey(states: seq<State>, i: nat, k: nat, l: nat)
    requires Run(states) && i < |states| && k < l < |states[i].history|
    requires states[i].history[k].order.Some? && states[i].history[l].order.Some?
    ensures var s := states[i];
            && s.history[k].order.value in s.db.orders && s.history[l].order.value in s.db.orders
            && s.db.orders[s.history[k].order.value].key != s.db.orders[s.history[l].order.value].key
  {
    var s := states[i];
    RunKeeps(states, i);
    assert EntryOk(s, s.history[k]) && EntryOk(s, s.history[l]);
  }
}
