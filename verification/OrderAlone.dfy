/** What an order or a reservation does when nobody else holds or does anything: its sequential meaning. */
module OrderAlone {
  import opened Wrappers
  import opened JsText
  import opened Fingerprint
  import opened OrderMachine
  import opened OrderInvariant

  /** Nobody but `c` holds a lock or a slot. */
  predicate Alone(s: State, c: ClientId) { forall r :: r in s.held ==> s.held[r] == c }

  lemma AloneEnabled(s: State, c: ClientId)
    requires Alone(s, c) && Live(s, c)
    ensures Enabled(s, c)
  {}

  lemma AloneStays(s: State, c: ClientId)
    requires Alone(s, c) && Live(s, c) && OrdersIndexed(s.db)
    ensures Alone(Advance(s, c), c)
  {}

  /** The next statement of `c` is answered at position `i`. */
  ghost predicate AnsweredAt(states: seq<State>, c: ClientId, i: nat)
  {
    && i + 1 < |states| && Live(states[i], c) && OrdersIndexed(states[i].db)
    && states[i + 1] == Advance(states[i], c)
  }

  /** Answered statements of `c` in a row. */
  ghost predicate Solo(states: seq<State>, c: ClientId)
  {
    |states| > 0 && forall i: nat :: i + 1 < |states| ==> AnsweredAt(states, c, i)
  }

  ghost predicate Joins(states: seq<State>, c: ClientId, s: State, end: State)
  {
    Solo(states, c) && states[0] == s && states[|states| - 1] == end
  }

  ghost predicate OwnRun(s: State, c: ClientId, end: State) { exists states :: Joins(states, c, s, end) }

  lemma OwnRunStarts(s: State, c: ClientId)
    ensures OwnRun(s, c, s)
  {
    assert Joins([s], c, s, s);
  }

  lemma SoloExtends(states: seq<State>, c: ClientId, after: State)
    requires Solo(states, c) && AnsweredAt([states[|states| - 1], after], c, 0)
    ensures Solo(states + [after], c)
  {
    var longer := states + [after];
    forall i: nat | i + 1 < |longer| ensures AnsweredAt(longer, c, i) {
      if i + 1 < |states| {
        assert AnsweredAt(states, c, i);
      }
    }
  }

  lemma OwnRunExtends(s: State, c: ClientId, now: State, after: State)
    requires OwnRun(s, c, now) && Live(now, c) && OrdersIndexed(now.db) && after == Advance(now, c)
    ensures OwnRun(s, c, after)
  {
    var states :| Joins(states, c, s, now);
    SoloExtends(states, c, after);
    assert Joins(states + [after], c, s, after);
  }

  /** `c` has finished with `result`. */
  predicate Finished(end: State, c: ClientId, result: Outcome) { c in end.clients && end.clients[c].pc == Done(result) }

  /** A run that ends with the call finished takes the next step, unless it is there. */
  lemma Peel(s: State, c: ClientId, end: State, result: Outcome)
    requires OwnRun(s, c, end) && Finished(end, c, result) && c in s.clients && !s.clients[c].pc.Done?
    ensures OrdersIndexed(s.db) && OwnRun(Advance(s, c), c, end)
  {
    var states :| Joins(states, c, s, end);
    assert AnsweredAt(states, c, 0);
    SoloRest(states, c);
    assert Joins(states[1..], c, states[1], end);
  }

  lemma SoloRest(states: seq<State>, c: ClientId)
    requires Solo(states, c) && |states| > 1
    ensures Solo(states[1..], c)
  {
    forall i: nat | i + 1 < |states[1..]| ensures AnsweredAt(states[1..], c, i) {
      assert AnsweredAt(states, c, i + 1);
    }
  }

  lemma FirstIsLive(states: seq<State>, c: ClientId)
    requires Solo(states, c) && |states| > 1
    ensures Live(states[0], c)
  {
    assert AnsweredAt(states, c, 0);
  }

  lemma AtEnd(s: State, c: ClientId, end: State)
    requires OwnRun(s, c, end) && c in s.clients && s.clients[c].pc.Done?
    ensures s == end
  {
    var states :| Joins(states, c, s, end);
    if |states| > 1 {
      FirstIsLive(states, c);
    }
  }

  // ----- The sequential meaning of a call

  /** What a reservation answers, and the products it leaves. */
  function Reservation(db: Database, product: Text, quantity: int): Outcome
  {
    if quantity <= 0 then Failed(Validation)
    else if product !in db.products then Failed(ProductNotFound)
    else if db.products[product].stock < quantity then Failed(InsufficientInventory)
    else Reserved(Debit(db.products[product], quantity))
  }

  function AfterReservation(db: Database, product: Text, quantity: int): Database
  {
    if Reservation(db, product, quantity).Reserved?
    then db.(products := db.products[product := Reservation(db, product, quantity).product]) else db
  }

  /** What an order call answers. */
  function Ordering(db: Database, call: Call): Outcome
    requires OrdersIndexed(db) && IsOrder(call)
  {
    if !ValidInput(call.input) then Failed(Validation)
    else
      match FindByKey(db, call.input.key)
      case Some(o) => Resolve(o, InputFingerprint(call.input))
      case None =>
        var reserved := Reservation(db, ProductOf(call), call.input.quantity);
        if reserved.Failed? then reserved
        else if call.id in db.orders then Failed(DatabaseFailure)
        else Returned(RowOf(call))
  }

  predicate CreatesOrder(db: Database, call: Call)
    requires OrdersIndexed(db) && IsOrder(call)
  {
    Ordering(db, call).Returned? && !KeyTaken(db, call.input.key)
  }

  /** A new order is stored; an atomic one also takes its quantity from the stock and gets its processing record. */
  function AfterOrdering(db: Database, call: Call): Database
    requires OrdersIndexed(db) && IsOrder(call)
  {
    if !CreatesOrder(db, call) then db
    else if call.AtomicOrder? then
      Database(AfterReservation(db, ProductOf(call), call.input.quantity).products,
               db.orders[call.id := RowOf(call)], db.processing + {call.id})
    else db.(orders := db.orders[call.id := RowOf(call)])
  }

  predicate Sequential(db: Database, call: Call, result: Outcome, after: Database)
  {
    OrdersIndexed(db) && IsOrder(call) && result == Ordering(db, call) && after == AfterOrdering(db, call)
  }

  // ----- Ends of a call

  lemma FromCommit(s: State, c: ClientId, end: State, result: Outcome)
    requires OwnRun(s, c, end) && Finished(end, c, result) && c in s.clients && s.clients[c].pc.Commit?
    ensures result == s.clients[c].pc.result
    ensures end.db == Apply(s.db, ProductOf(s.clients[c].call), s.clients[c].writes)
  {
    Peel(s, c, end, result);
    AtEnd(Advance(s, c), c, end);
  }

  lemma FromRollback(s: State, c: ClientId, end: State, result: Outcome)
    requires OwnRun(s, c, end) && Finished(end, c, result) && c in s.clients && s.clients[c].pc.Rollback?
    ensures result == s.clients[c].pc.result && end.db == s.db
  {
    Peel(s, c, end, result);
    AtEnd(Advance(s, c), c, end);
  }

  // ----- The atomic order

  lemma FromProcessing(s: State, c: ClientId, end: State, result: Outcome)
    requires OwnRun(s, c, end) && Finished(end, c, result) && c in s.clients && s.clients[c].pc.InsertProcessing?
    requires IsOrder(s.clients[c].call) && s.clients[c].call.id !in s.db.processing
    ensures var cl := s.clients[c];
            && result == Returned(RowOf(cl.call))
            && end.db == Apply(s.db, ProductOf(cl.call), cl.writes.(processing := true))
  {
    Peel(s, c, end, result);
    FromCommit(Advance(s, c), c, end, result);
  }

  lemma FromAtomicInsert(s: State, c: ClientId, end: State, result: Outcome)
    requires OwnRun(s, c, end) && Finished(end, c, result) && c in s.clients && s.clients[c].pc.Insert?
    requires var call := s.clients[c].call; call.AtomicOrder? && !KeyTaken(s.db, call.input.key)
    requires s.clients[c].call.id in s.db.processing ==> s.clients[c].call.id in s.db.orders
    ensures var cl := s.clients[c];
            if cl.call.id in s.db.orders then result == Failed(DatabaseFailure) && end.db == s.db
            else result == Returned(RowOf(cl.call))
                 && end.db == Apply(s.db, ProductOf(cl.call), Writes(cl.writes.product, Some(RowOf(cl.call)), true))
  {
    Peel(s, c, end, result);
    if s.clients[c].call.id in s.db.orders {
      FromRollback(Advance(s, c), c, end, result);
    } else {
      FromProcessing(Advance(s, c), c, end, result);
    }
  }

  lemma FromReserve(s: State, c: ClientId, end: State, result: Outcome)
    requires OwnRun(s, c, end) && Finished(end, c, result) && c in s.clients && s.clients[c].pc.Reserve?
    requires var call := s.clients[c].call; call.AtomicOrder? && !KeyTaken(s.db, call.input.key)
    requires s.clients[c].call.id in s.db.processing ==> s.clients[c].call.id in s.db.orders
    requires Matches(s.db, ProductOf(s.clients[c].call), QuantityOf(s.clients[c].call), None)
    ensures var cl := s.clients[c]; var p := ProductOf(cl.call);
            if cl.call.id in s.db.orders then result == Failed(DatabaseFailure) && end.db == s.db
            else result == Returned(RowOf(cl.call))
                 && var row := Debit(s.db.products[p], QuantityOf(cl.call));
                    end.db == Apply(s.db, p, Writes(Some(row), Some(RowOf(cl.call)), true))
  {
    Peel(s, c, end, result);
    FromAtomicInsert(Advance(s, c), c, end, result);
  }

  /** The processing records belong to orders, as their foreign key says. */
  predicate Recorded(db: Database) { forall id :: id in db.processing ==> id in db.orders }

  lemma FromRecheck(s: State, c: ClientId, end: State, result: Outcome)
    requires OwnRun(s, c, end) && Finished(end, c, result) && c in s.clients && s.clients[c].pc.Recheck? && Recorded(s.db)
    requires var call := s.clients[c].call; call.AtomicOrder? && ValidInput(call.input) && !KeyTaken(s.db, call.input.key)
    requires s.clients[c].pc.found == FindProduct(s.db, ProductOf(s.clients[c].call))
    ensures Sequential(s.db, s.clients[c].call, result, end.db)
  {
    Peel(s, c, end, result);
    var next := Advance(s, c);
    if next.clients[c].pc.Reserve? {
      FromReserve(next, c, end, result);
    } else {
      FromRollback(next, c, end, result);
    }
  }

  lemma FromLock(s: State, c: ClientId, end: State, result: Outcome)
    requires OwnRun(s, c, end) && Finished(end, c, result) && c in s.clients && s.clients[c].pc.AwaitLock? && Recorded(s.db)
    requires var call := s.clients[c].call; call.AtomicOrder? && ValidInput(call.input) && !KeyTaken(s.db, call.input.key)
    ensures Sequential(s.db, s.clients[c].call, result, end.db)
  {
    Peel(s, c, end, result);
    FromRecheck(Advance(s, c), c, end, result);
  }

  lemma FromLookup(s: State, c: ClientId, end: State, result: Outcome)
    requires OwnRun(s, c, end) && Finished(end, c, result) && c in s.clients && s.clients[c].pc.Lookup? && Recorded(s.db)
    requires IsOrder(s.clients[c].call) && ValidInput(s.clients[c].call.input) && s.clients[c].writes == NO_WRITES
    ensures Sequential(s.db, s.clients[c].call, result, end.db)
  {
    Peel(s, c, end, result);
    var next := Advance(s, c);
    if KeyTaken(s.db, s.clients[c].call.input.key) {
      AtEnd(next, c, end);
    } else if s.clients[c].call.AtomicOrder? {
      FromLock(next, c, end, result);
    } else {
      FromReadProduct(next, c, end, result);
    }
  }

  // ----- The order without a transaction

  lemma FromPublish(s: State, c: ClientId, end: State, result: Outcome)
    requires OwnRun(s, c, end) && Finished(end, c, result) && c in s.clients && s.clients[c].pc.Publish?
    ensures result == Returned(s.clients[c].pc.order) && end.db == s.db
  {
    Peel(s, c, end, result);
    AtEnd(Advance(s, c), c, end);
  }

  lemma FromReference(s: State, c: ClientId, end: State, result: Outcome)
    requires OwnRun(s, c, end) && Finished(end, c, result) && c in s.clients && s.clients[c].pc.CheckReference?
    requires IsOrder(s.clients[c].call) && ProductOf(s.clients[c].call) in s.db.products
    ensures result == Returned(RowOf(s.clients[c].call))
    ensures end.db == Apply(s.db, ProductOf(s.clients[c].call), s.clients[c].writes)
  {
    Peel(s, c, end, result);
    FromPublish(Advance(s, c), c, end, result);
  }

  lemma FromUnlockedInsert(s: State, c: ClientId, end: State, result: Outcome)
    requires OwnRun(s, c, end) && Finished(end, c, result) && c in s.clients && s.clients[c].pc.Insert?
    requires s.clients[c].call.UnlockedOrder? && ProductOf(s.clients[c].call) in s.db.products
    requires !KeyTaken(s.db, s.clients[c].call.input.key)
    requires s.clients[c].writes == NO_WRITES
    ensures var cl := s.clients[c];
            if cl.call.id in s.db.orders then result == Failed(DatabaseFailure) && end.db == s.db
            else result == Returned(RowOf(cl.call))
                 && end.db == Apply(s.db, ProductOf(cl.call), Writes(None, Some(RowOf(cl.call)), false))
  {
    Peel(s, c, end, result);
    var next := Advance(s, c);
    if s.clients[c].call.id in s.db.orders {
      AtEnd(next, c, end);
    } else {
      FromReference(next, c, end, result);
    }
  }

  lemma FromReadProduct(s: State, c: ClientId, end: State, result: Outcome)
    requires OwnRun(s, c, end) && Finished(end, c, result) && c in s.clients && s.clients[c].pc.ReadProduct?
    requires var call := s.clients[c].call; call.UnlockedOrder? && ValidInput(call.input) && !KeyTaken(s.db, call.input.key)
    requires s.clients[c].writes == NO_WRITES
    ensures Sequential(s.db, s.clients[c].call, result, end.db)
  {
    Peel(s, c, end, result);
    var next := Advance(s, c);
    if next.clients[c].pc.Insert? {
      FromUnlockedInsert(next, c, end, result);
    } else {
      AtEnd(next, c, end);
    }
  }

  /**
   Undisturbed, an order call of either service does exactly what the sequential meaning says: the
   answer, the stock it takes, the order and the processing record it stores.
   */
  lemma UndisturbedOrder(s: State, c: ClientId, end: State, result: Outcome)
    requires OwnRun(s, c, end) && Finished(end, c, result) && c in s.clients && s.clients[c].pc.Start?
    requires IsOrder(s.clients[c].call) && s.clients[c].writes == NO_WRITES && Recorded(s.db)
    ensures Sequential(s.db, s.clients[c].call, result, end.db)
  {
    Peel(s, c, end, result);
    var next := Advance(s, c);
    if next.clients[c].pc.Lookup? {
      FromLookup(next, c, end, result);
    } else {
      AtEnd(next, c, end);
    }
  }

  // ----- Reservations

  lemma FromLockedReserve(s: State, c: ClientId, end: State, result: Outcome)
    requires OwnRun(s, c, end) && Finished(end, c, result) && c in s.clients && s.clients[c].pc.Reserve?
    requires s.clients[c].call.LockedReserve?
    requires Matches(s.db, ProductOf(s.clients[c].call), QuantityOf(s.clients[c].call), None)
    ensures var cl := s.clients[c]; var p := ProductOf(cl.call); var row := Debit(s.db.products[p], QuantityOf(cl.call));
            result == Reserved(row) && end.db == Apply(s.db, p, Writes(Some(row), None, false))
  {
    Peel(s, c, end, result);
    FromCommit(Advance(s, c), c, end, result);
  }

  lemma FromReserveLock(s: State, c: ClientId, end: State, result: Outcome)
    requires OwnRun(s, c, end) && Finished(end, c, result) && c in s.clients && s.clients[c].pc.AwaitLock?
    requires s.clients[c].call.LockedReserve? && QuantityOf(s.clients[c].call) > 0
    ensures var call := s.clients[c].call;
            && result == Reservation(s.db, ProductOf(call), QuantityOf(call))
            && end.db == AfterReservation(s.db, ProductOf(call), QuantityOf(call))
  {
    Peel(s, c, end, result);
    var next := Advance(s, c);
    if next.clients[c].pc.Reserve? {
      FromLockedReserve(next, c, end, result);
    } else {
      FromRollback(next, c, end, result);
    }
  }

  lemma FromUpdate(s: State, c: ClientId, end: State, result: Outcome)
    requires OwnRun(s, c, end) && Finished(end, c, result) && c in s.clients && s.clients[c].pc.Update?
    requires Matches(s.db, ProductOf(s.clients[c].call), QuantityOf(s.clients[c].call), Some(s.clients[c].pc.seen.version))
    ensures var cl := s.clients[c]; var p := ProductOf(cl.call); var row := Debit(s.db.products[p], QuantityOf(cl.call));
            result == Reserved(row) && end.db == Apply(s.db, p, Writes(Some(row), None, false))
  {
    Peel(s, c, end, result);
    AtEnd(Advance(s, c), c, end);
  }

  lemma FromRead(s: State, c: ClientId, end: State, result: Outcome)
    requires OwnRun(s, c, end) && Finished(end, c, result) && c in s.clients && s.clients[c].pc.Read?
    requires s.clients[c].call.OptimisticReserve? && QuantityOf(s.clients[c].call) > 0
    ensures var call := s.clients[c].call;
            && result == Reservation(s.db, ProductOf(call), QuantityOf(call))
            && end.db == AfterReservation(s.db, ProductOf(call), QuantityOf(call))
  {
    Peel(s, c, end, result);
    var next := Advance(s, c);
    if next.clients[c].pc.Update? {
      FromUpdate(next, c, end, result);
    } else {
      AtEnd(next, c, end);
    }
  }

  /** Undisturbed, both reservers do the same thing: they take the quantity if it is there. */
  lemma UndisturbedReservation(s: State, c: ClientId, end: State, result: Outcome)
    requires OwnRun(s, c, end) && Finished(end, c, result) && c in s.clients && s.clients[c].pc.Start?
    requires !IsOrder(s.clients[c].call)
    ensures var call := s.clients[c].call;
            && result == Reservation(s.db, ProductOf(call), QuantityOf(call))
            && end.db == AfterReservation(s.db, ProductOf(call), QuantityOf(call))
  {
    Peel(s, c, end, result);
    var next := Advance(s, c);
    if next.clients[c].pc.AwaitLock? {
      FromReserveLock(next, c, end, result);
    } else if next.clients[c].pc.Read? {
      FromRead(next, c, end, result);
    } else {
      AtEnd(next, c, end);
    }
  }
}
