/** Why a call is answered as it is, in every run: each refusal has its reason in the request and the tables. */
module OrderReasons {
  import opened Wrappers
  import opened JsText
  import opened OrderMachine
  import opened OrderInvariant
  import opened OrderSteps
  import opened OrderTheorems
  import opened OrderAnswers
  import opened OrderMeaning

  // ----- Reasons

  /** An order under the call's key is for another request. */
  predicate Contradicted(db: Database, input: Input)
  {
    exists id :: id in db.orders && db.orders[id].key == input.key && !SameRequest(db.orders[id], input)
  }

  predicate Reason(db: Database, call: Call, e: Error)
  {
    match e
    case Validation => if IsOrder(call) then !Acceptable(call.input) else QuantityOf(call) <= 0
    case KeyReused => IsOrder(call) && Contradicted(db, call.input)
    case ProductNotFound => ProductOf(call) !in db.products
    case InsufficientInventory => ProductOf(call) in db.products && db.products[ProductOf(call)].stock < QuantityOf(call)
    case RetriesExhausted => call.OptimisticReserve?
    case NullRecord => false
    case DatabaseFailure => true
  }

  predicate Explained(db: Database, call: Call, result: Outcome) { result.Failed? ==> Reason(db, call, result.error) }

  /** The request has passed its validation, unless the call has not begun or has failed at once. */
  predicate Passed(call: Call, pc: Pc)
  {
    || pc.Start? || pc == Done(Failed(Validation)) || pc == Done(Failed(DatabaseFailure))
    || if IsOrder(call) then Acceptable(call.input) else QuantityOf(call) > 0
  }

  predicate Founded(db: Database, cl: Client)
  {
    && Passed(cl.call, cl.pc)
    && match cl.pc
       case Recheck(found) => found.None? ==> ProductOf(cl.call) !in db.products
       case Commit(result) => !result.Failed?
       case Rollback(result) => Explained(db, cl.call, result)
       case Done(result) => Explained(db, cl.call, result)
       case _ => true
  }

  ghost predicate FoundedAt(s: State, c: ClientId) { c in s.clients ==> Founded(s.db, s.clients[c]) }

  predicate Proper(o: Order) { o.quantity > 0 && o.amount > 0 && Shows(o.key) }

  ghost predicate Reasoned(s: State)
  {
    && (forall c :: FoundedAt(s, c))
    && (forall id :: id in s.db.orders && id !in s.initial.orders ==> Proper(s.db.orders[id]))
  }

  // ----- Reasons last

  /** Orders stay, no product comes or goes, and no stock grows. */
  ghost predicate Later(db: Database, db': Database)
  {
    && (forall id :: id in db.orders ==> id in db'.orders && db'.orders[id] == db.orders[id])
    && db'.products.Keys == db.products.Keys
    && (forall p :: p in db.products ==> db'.products[p].stock <= db.products[p].stock)
  }

  lemma ReasonLasts(db: Database, db': Database, call: Call, e: Error)
    requires Later(db, db') && Reason(db, call, e)
    ensures Reason(db', call, e)
  {
    if e.KeyReused? {
      var id :| id in db.orders && db.orders[id].key == call.input.key && !SameRequest(db.orders[id], call.input);
      assert db'.orders[id].key == call.input.key && !SameRequest(db'.orders[id], call.input);
    }
  }

  lemma FoundedLasts(db: Database, db': Database, cl: Client)
    requires Later(db, db') && Founded(db, cl)
    ensures Founded(db', cl)
  {
    match cl.pc
    case Rollback(result) => if result.Failed? { ReasonLasts(db, db', cl.call, result.error); }
    case Done(result) => if result.Failed? { ReasonLasts(db, db', cl.call, result.error); }
    case _ =>
  }

  lemma ApplyIsLater(db: Database, call: Call, w: Writes)
    requires WritesOk(db, call, w)
    ensures Later(db, Apply(db, ProductOf(call), w))
  {}

  lemma StepIsLater(s: State, c: ClientId, s': State)
    requires Inv(s) && StepOf(s, c, s')
    ensures Later(s.db, s'.db)
  {
    StepApplies(s, c, s');
    if s'.db != s.db {
      EffectsAllowed(s, c);
      ApplyIsLater(s.db, s.clients[c].call, Effects(s, c));
    }
  }

  // ----- A client's own step, by control point

  lemma ResolvedIsExplained(db: Database, call: Call, o: Order)
    requires DatabaseOk(db) && IsOrder(call) && FindByKey(db, call.input.key) == Some(o)
    ensures Explained(db, call, Resolve(o, InputFingerprint(call.input)))
  {
    ResolveMeans(o, call.input);
    assert o.id in db.orders && db.orders[o.id].key == call.input.key;
  }

  lemma StartFounded(s: State, c: ClientId)
    requires Live(s, c) && OrdersIndexed(s.db) && s.clients[c].pc.Start?
    ensures Founded(Advance(s, c).db, Advance(s, c).clients[c])
  {
    if IsOrder(s.clients[c].call) {
      AcceptableIsValid(s.clients[c].call.input);
    }
  }

  lemma LookupFounded(s: State, c: ClientId)
    requires Live(s, c) && DatabaseOk(s.db) && s.clients[c].pc.Lookup? && Passed(s.clients[c].call, Lookup)
    ensures Founded(Advance(s, c).db, Advance(s, c).clients[c])
  {
    var call := s.clients[c].call;
    if IsOrder(call) && FindByKey(s.db, call.input.key).Some? {
      ResolvedIsExplained(s.db, call, FindByKey(s.db, call.input.key).value);
    }
  }

  lemma LockFounded(s: State, c: ClientId)
    requires Live(s, c) && OrdersIndexed(s.db) && s.clients[c].pc.AwaitLock? && Passed(s.clients[c].call, AwaitLock)
    ensures Founded(Advance(s, c).db, Advance(s, c).clients[c])
  {}

  lemma RecheckFounded(s: State, c: ClientId)
    requires Live(s, c) && DatabaseOk(s.db) && s.clients[c].pc.Recheck? && Founded(s.db, s.clients[c])
    requires s.clients[c].pc.found.Some? ==> RowIs(s.db, ProductOf(s.clients[c].call), s.clients[c].pc.found.value)
    ensures Founded(Advance(s, c).db, Advance(s, c).clients[c])
  {
    var call := s.clients[c].call;
    if IsOrder(call) && FindByKey(s.db, call.input.key).Some? {
      ResolvedIsExplained(s.db, call, FindByKey(s.db, call.input.key).value);
    }
  }

  lemma ReserveFounded(s: State, c: ClientId)
    requires Live(s, c) && OrdersIndexed(s.db) && s.clients[c].pc.Reserve? && Founded(s.db, s.clients[c])
    requires Matches(s.db, ProductOf(s.clients[c].call), QuantityOf(s.clients[c].call), None)
    ensures Founded(Advance(s, c).db, Advance(s, c).clients[c])
  {}

  lemma InsertFounded(s: State, c: ClientId)
    requires Live(s, c) && OrdersIndexed(s.db) && s.clients[c].pc.Insert? && Founded(s.db, s.clients[c])
    ensures Founded(Advance(s, c).db, Advance(s, c).clients[c])
  {
    assert IsOrder(s.clients[c].call) ==> Advance(s, c) == InsertRow(s, c);
  }

  lemma ReadBackFounded(s: State, c: ClientId)
    requires Live(s, c) && DatabaseOk(s.db) && s.clients[c].pc.ReadBack? && Founded(s.db, s.clients[c])
    requires IsOrder(s.clients[c].call) && KeyTaken(s.db, s.clients[c].call.input.key)
    ensures Founded(Advance(s, c).db, Advance(s, c).clients[c])
  {
    var call := s.clients[c].call;
    ResolvedIsExplained(s.db, call, FindByKey(s.db, call.input.key).value);
  }

  lemma ProcessingFounded(s: State, c: ClientId)
    requires Live(s, c) && OrdersIndexed(s.db) && s.clients[c].pc.InsertProcessing? && Founded(s.db, s.clients[c])
    ensures Founded(Advance(s, c).db, Advance(s, c).clients[c])
  {}

  lemma FinishFounded(s: State, c: ClientId)
    requires Live(s, c) && OrdersIndexed(s.db) && Founded(s.db, s.clients[c])
    requires s.clients[c].pc.Commit? || s.clients[c].pc.Rollback? || s.clients[c].pc.Publish? || s.clients[c].pc.CheckReference?
    ensures Founded(Advance(s, c).db, Advance(s, c).clients[c])
  {}

  lemma ReadFounded(s: State, c: ClientId)
    requires Live(s, c) && OrdersIndexed(s.db) && Founded(s.db, s.clients[c])
    requires s.clients[c].pc.ReadProduct? || s.clients[c].pc.Read?
    ensures Founded(Advance(s, c).db, Advance(s, c).clients[c])
  {}

  lemma UpdateFounded(s: State, c: ClientId)
    requires Live(s, c) && OrdersIndexed(s.db) && s.clients[c].pc.Update? && Founded(s.db, s.clients[c])
    requires s.clients[c].call.OptimisticReserve?
    ensures Founded(Advance(s, c).db, Advance(s, c).clients[c])
  {}

  lemma AdvanceFounded(s: State, c: ClientId)
    requires Inv(s) && Enabled(s, c) && FoundedAt(s, c)
    ensures FoundedAt(Advance(s, c), c)
  {
    assert ClientAt(s, c);
    match s.clients[c].pc
    case Start => StartFounded(s, c);
    case Lookup => LookupFounded(s, c);
    case AwaitLock => LockFounded(s, c);
    case Recheck(_) => RecheckFounded(s, c);
    case Reserve(_) => ReserveFounded(s, c);
    case Insert => InsertFounded(s, c);
    case ReadBack => ReadBackFounded(s, c);
    case InsertProcessing => ProcessingFounded(s, c);
    case ReadProduct => ReadFounded(s, c);
    case Read(_) => ReadFounded(s, c);
    case Update(_, _) => UpdateFounded(s, c);
    case _ => FinishFounded(s, c);
  }

  /** A failed statement reports a database failure, or the cause of the rollback that failed. */
  lemma FailureFounded(s: State, c: ClientId, w: Writes)
    requires Live(s, c) && FoundedAt(s, c) && Later(s.db, Apply(s.db, ProductOf(s.clients[c].call), w))
    ensures FoundedAt(Settle(s, c, w, Done(FailureOf(s.clients[c].pc))), c)
  {
    var pc := s.clients[c].pc;
    if pc.Rollback? && pc.result.Failed? {
      ReasonLasts(s.db, Apply(s.db, ProductOf(s.clients[c].call), w), s.clients[c].call, pc.result.error);
    }
  }

  lemma OwnStepFounded(s: State, c: ClientId, s': State)
    requires Inv(s) && FoundedAt(s, c) && StepOf(s, c, s')
    ensures FoundedAt(s', c)
  {
    if s' == Abort(s, c) {
      assert Apply(s.db, ProductOf(s.clients[c].call), NO_WRITES) == s.db;
      FailureFounded(s, c, NO_WRITES);
    } else if s' == LostReply(s, c) {
      EffectsAllowed(s, c);
      ApplyIsLater(s.db, s.clients[c].call, Effects(s, c));
      FailureFounded(s, c, Effects(s, c));
    } else {
      AdvanceFounded(s, c);
    }
  }

  /** Only calls that have passed their validation commit orders. */
  lemma StepProper(s: State, c: ClientId, s': State)
    requires Inv(s) && Reasoned(s) && StepOf(s, c, s')
    ensures forall id :: id in s'.db.orders && id !in s'.initial.orders ==> Proper(s'.db.orders[id])
  {
    StepKeepsCalls(s, c, s');
    StepKeepsOrders(s, c, s');
    if s'.db.orders != s.db.orders {
      assert FoundedAt(s, c);
      CommitterPassed(s, c);
      RowMeans(s.clients[c].call);
    }
  }

  lemma CommitterPassed(s: State, c: ClientId)
    requires Live(s, c) && Founded(s.db, s.clients[c]) && Effects(s, c).order.Some? && IsOrder(s.clients[c].call)
    ensures Acceptable(s.clients[c].call.input)
  {}

  lemma NextReasoned(s: State, s': State)
    requires Inv(s) && Reasoned(s) && Next(s, s')
    ensures Reasoned(s')
  {
    var c :| StepOf(s, c, s');
    StepProper(s, c, s');
    StepIsLater(s, c, s');
    StepKeepsCalls(s, c, s');
    forall d ensures FoundedAt(s', d) {
      assert FoundedAt(s, d);
      if d == c {
        OwnStepFounded(s, c, s');
      } else if d in s.clients {
        FoundedLasts(s.db, s'.db, s.clients[d]);
      }
    }
  }

  lemma RunReasoned(states: seq<State>, i: nat)
    requires Run(states) && i < |states|
    ensures Reasoned(states[i])
  {
    var reasoned := (s: State) => Reasoned(s);
    forall k: nat | k + 1 < |states| && reasoned(states[k]) ensures reasoned(states[k + 1]) {
      RunKeeps(states, k);
      StepTaken(states, k);
      NextReasoned(states[k], states[k + 1]);
    }
    Along(reasoned, states, 0, i);
  }

  // ----- Whole-run results

  /** What an answer says about the request and the tables, in plain terms. */
  ghost predicate Warranted(db: Database, call: Call, result: Outcome)
  {
    match result
    case Returned(o) =>
      && IsOrder(call) && Acceptable(call.input) && o.id in db.orders && db.orders[o.id] == o
      && o.key == call.input.key && SameRequest(o, call.input)
    case Reserved(_) => !IsOrder(call) && Wanted(call).1 > 0
    case Failed(Validation) => if IsOrder(call) then !Acceptable(call.input) else Wanted(call).1 <= 0
    case Failed(KeyReused) => IsOrder(call) && Contradicted(db, call.input)
    case Failed(ProductNotFound) => forall p :: p in db.products ==> !SameText(p, Wanted(call).0)
    case Failed(InsufficientInventory) =>
      exists p :: p in db.products && SameText(p, Wanted(call).0) && db.products[p].stock < Wanted(call).1
    case Failed(RetriesExhausted) => call.OptimisticReserve?
    case Failed(NullRecord) => false
    case Failed(DatabaseFailure) => true
  }

  lemma RefusedIsWarranted(db: Database, call: Call, e: Error)
    requires DatabaseOk(db) && Reason(db, call, e)
    ensures Warranted(db, call, Failed(e))
  {
    forall p | p in db.products ensures SameText(p, Wanted(call).0) <==> p == ProductOf(call) {
      NamedProduct(db, call, p);
    }
  }

  lemma DoneIsWarranted(db: Database, call: Call, result: Outcome)
    requires DatabaseOk(db) && Answers(db, call, result) && Founded(db, Client(call, Done(result), false, NO_WRITES, 0))
    requires result.Reserved? ==> !IsOrder(call)
    ensures Warranted(db, call, result)
  {
    match result
    case Returned(o) => ResolveMeans(o, call.input);
    case Reserved(_) =>
    case Failed(e) => RefusedIsWarranted(db, call, e);
  }

  /**
   In every run, whatever the others do: an order that is answered is committed, has the call's key and is
   for the same request; and every refusal but a database failure has its reason in the request and the tables.
   */
  lemma AnswersWarranted(states: seq<State>, i: nat, c: ClientId)
    requires Run(states) && i < |states| && c in states[i].clients && states[i].clients[c].pc.Done?
    ensures Warranted(states[i].db, states[i].clients[c].call, states[i].clients[c].pc.result)
  {
    RunKeeps(states, i);
    RunReasoned(states, i);
    RunTold(states, i);
    var s := states[i]; var cl := s.clients[c];
    assert FoundedAt(s, c) && ClientAt(s, c) && Told(s, c);
    DoneIsWarranted(s.db, cl.call, cl.pc.result);
  }

  /** A request that is not acceptable is refused for validation, whatever the others do, unless the database fails first. */
  lemma UnacceptableRefused(states: seq<State>, i: nat, c: ClientId)
    requires Run(states) && i < |states| && c in states[i].clients && states[i].clients[c].pc.Done?
    requires IsOrder(states[i].clients[c].call) && !Acceptable(states[i].clients[c].call.input)
    ensures states[i].clients[c].pc.result in {Failed(Validation), Failed(DatabaseFailure)}
  {
    RunReasoned(states, i);
    assert FoundedAt(states[i], c);
  }

  /** The guarded update of an optimistic attempt takes the stock if and only if the row is still the one it has read. */
  ghost predicate HitsIfSeen(s: State, c: ClientId, p: Text)
    requires Live(s, c) && OrdersIndexed(s.db) && s.clients[c].pc.Update?
  {
    var cl := s.clients[c]; var seen := cl.pc.seen;
    && p in s.db.products && cl.call.OptimisticReserve?
    && Advance(s, c).clients[c].pc
       == if s.db.products[p] == seen then Done(Reserved(Product(seen.stock - Wanted(cl.call).1, seen.version + 1)))
          else if cl.pc.attempt <= cl.call.maxRetries then Read(cl.pc.attempt + 1)
          else Done(Failed(RetriesExhausted))
  }

  lemma UpdateHitsSeen(s: State, c: ClientId)
    requires Live(s, c) && OrdersIndexed(s.db) && ClientAt(s, c) && s.clients[c].pc.Update?
    ensures HitsIfSeen(s, c, ProductOf(s.clients[c].call))
  {}

  lemma HitsNamed(s: State, c: ClientId, p: Text)
    requires Live(s, c) && DatabaseOk(s.db) && ClientAt(s, c) && s.clients[c].pc.Update?
    requires p in s.db.products && SameText(p, Wanted(s.clients[c].call).0)
    ensures HitsIfSeen(s, c, p)
  {
    UpdateHitsSeen(s, c);
    NamedProduct(s.db, s.clients[c].call, p);
  }

  /**
   In every run an optimistic attempt takes the stock if and only if the row is still, stock and version,
   what it has read; otherwise the next attempt reads it again, or retries are over.
   */
  lemma OptimisticHitsIff(states: seq<State>, i: nat, c: ClientId, p: Text)
    requires Run(states) && i < |states| && Live(states[i], c) && states[i].clients[c].pc.Update?
    requires p in states[i].db.products && SameText(p, Wanted(states[i].clients[c].call).0)
    ensures OrdersIndexed(states[i].db) && HitsIfSeen(states[i], c, p)
  {
    RunKeeps(states, i);
    assert ClientAt(states[i], c);
    HitsNamed(states[i], c, p);
  }

  /** No order without a positive quantity and amount and a key that shows is ever committed. */
  lemma OrdersProper(states: seq<State>, i: nat, id: Text)
    requires Run(states) && i < |states| && id in states[i].db.orders && id !in states[i].initial.orders
    ensures var o := states[i].db.orders[id]; o.quantity > 0 && o.amount > 0 && Shows(o.key)
  {
    RunReasoned(states, i);
  }
}
