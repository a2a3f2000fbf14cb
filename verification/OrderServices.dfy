/**
 The services as imperative code over a shared store. Between any two awaits other clients run; a
 turn says what they do and whether this client's statement then fails. Every statement is one step
 of the order machine, so whatever the machine guarantees holds for the services.
 */
module OrderServices {
  import opened Wrappers
  import opened JsText
  import opened OrderMachine
  import opened OrderInvariant
  import opened OrderSteps
  import opened OrderTheorems
  import opened OrderExits
  import opened OrderAlone
  import opened OrderAnswers
  import opened OrderMeaning
  import opened OrderReasons

  /** A statement of another client: it answers, its answer is lost, or it fails. */
  datatype Move = Replies(client: ClientId) | Loses(client: ClientId) | Fails(client: ClientId)

  /** What happens from one await to the next: the others' moves, then the fate of the own statement. */
  datatype Turn = Turn(others: seq<Move>, fault: Fault)

  datatype Fault = NoFault | Refused | ReplyLost

  type Schedule = nat -> Turn

  /** Nobody else moves, and the statement answers. */
  const QUIET := Turn([], NoFault)

  ghost predicate Quiet(turns: Schedule) { forall i :: turns(i) == QUIET }

  lemma RunExtends(states: seq<State>, s: State)
    requires Run(states) && Next(states[|states| - 1], s)
    ensures Run(states + [s])
  {
    var longer := states + [s];
    forall i: nat | i + 1 < |longer| ensures StepAt(longer, i) {
      if i + 1 < |states| {
        assert StepAt(states, i);
      }
    }
  }

  lemma ReferencePasses(s: State, c: ClientId)
    requires Live(s, c) && OrdersIndexed(s.db) && s.clients[c].pc.CheckReference? && IsOrder(s.clients[c].call)
    requires ProductOf(s.clients[c].call) in s.db.products
    ensures var cl := Advance(s, c).clients[c]; cl.call == s.clients[c].call && cl.pc == Publish(RowOf(cl.call))
  {}

  lemma ProcessingPasses(s: State, c: ClientId)
    requires Live(s, c) && OrdersIndexed(s.db) && s.clients[c].pc.InsertProcessing? && IsOrder(s.clients[c].call)
    requires s.clients[c].call.id !in s.db.processing
    ensures var cl := Advance(s, c).clients[c]; cl.call == s.clients[c].call && cl.pc == Commit(Returned(RowOf(cl.call)))
  {}

  lemma ReadBackAnswers(s: State, c: ClientId)
    requires Live(s, c) && OrdersIndexed(s.db) && s.clients[c].pc.ReadBack? && IsOrder(s.clients[c].call)
    requires FindByKey(s.db, s.clients[c].call.input.key).Some?
    ensures var cl := Advance(s, c).clients[c];
            var result := Resolve(FindByKey(s.db, cl.call.input.key).value, InputFingerprint(cl.call.input));
            cl.call == s.clients[c].call && cl.pc == if cl.call.AtomicOrder? then Rollback(result) else Done(result)
  {}

  lemma ReadAnswers(s: State, c: ClientId)
    requires Live(s, c) && OrdersIndexed(s.db) && (s.clients[c].pc.Read? || s.clients[c].pc.ReadProduct?)
    ensures var was, cl := s.clients[c], Advance(s, c).clients[c]; var found := FindProduct(s.db, ProductOf(was.call));
            && cl.call == was.call
            && cl.pc == CheckUnlocked(found, QuantityOf(was.call),
                                      if was.pc.ReadProduct? then Insert
                                      else if found.Some? then Update(was.pc.attempt, found.value) else Start)
  {}

  lemma UpdateAnswers(s: State, c: ClientId)
    requires Live(s, c) && OrdersIndexed(s.db) && s.clients[c].pc.Update? && s.clients[c].call.OptimisticReserve?
    ensures var was, cl := s.clients[c], Advance(s, c).clients[c];
            && cl.call == was.call
            && cl.pc == AfterUpdate(was.call, was.pc.attempt, Updated(s.db, was.call, Some(was.pc.seen.version)))
  {}

  /** A conflict leads to the next attempt while there are retries left. */
  function AfterUpdate(call: Call, attempt: nat, updated: Option<Product>): Pc
    requires call.OptimisticReserve?
  {
    match updated
    case Some(p) => Done(Reserved(p))
    case None => if attempt <= call.maxRetries then Read(attempt + 1) else Done(Failed(RetriesExhausted))
  }

  class Store {
    var state: State
    ghost var trace: seq<State>

    /** While `undisturbed`, only answered statements of `runner` have led from `mark` to the present state. */
    ghost var runner: ClientId
    ghost var mark: State
    ghost var undisturbed: bool

    /** The store is in the last state of a run of the order machine. */
    ghost predicate Valid()
      reads this
    {
      && Run(trace) && trace[|trace| - 1] == state
      && (undisturbed ==> Alone(state, runner) && OwnRun(mark, runner, state))
    }

    constructor (db: Database, calls: map<ClientId, Call>)
      requires DatabaseOk(db)
      ensures Valid() && state.db == db && state.history == []
      ensures forall c :: c in calls <==> c in state.clients
      ensures forall c :: c in calls ==> state.clients[c] == Client(calls[c], Start, false, NO_WRITES, 0)
    {
      state := State(db, db, map c | c in calls :: Client(calls[c], Start, false, NO_WRITES, 0), map[], []);
      undisturbed := false;
      new;
      trace := [state];
    }

    /** From here on, what `c` does undisturbed is recorded. */
    ghost method Watch(c: ClientId)
      requires Valid()
      modifies this`runner, this`mark, this`undisturbed
      ensures Valid() && runner == c && mark == state && undisturbed == Alone(state, c)
    {
      runner, mark, undisturbed := c, state, Alone(state, c);
      OwnRunStarts(state, c);
    }

    /** Client `c` is at `pc`, with its call unchanged. */
    ghost predicate At(c: ClientId, call: Call, pc: Pc)
      reads this
    {
      c in state.clients && state.clients[c].call == call && state.clients[c].pc == pc
    }

    /** The state in which the last statement ran. */
    ghost function Seen(): State
      reads this
    {
      if |trace| >= 2 then trace[|trace| - 2] else state
    }

    method Become(c: ClientId, s: State)
      requires Valid() && StepOf(state, c, s)
      modifies this`state, this`trace, this`undisturbed
      ensures Valid() && state == s && old(trace) <= trace && Seen() == old(state) && !undisturbed
    {
      RunExtends(trace, s);
      state, trace, undisturbed := s, trace + [s], false;
    }

    /** The next statement of `c` runs and answers. */
    method Perform(c: ClientId)
      requires Valid() && Enabled(state, c)
      modifies this`state, this`trace, this`undisturbed
      ensures Valid() && OrdersIndexed(old(state).db) && state == Advance(old(state), c)
      ensures old(trace) <= trace && Seen() == old(state)
      ensures undisturbed == (old(undisturbed) && c == runner)
    {
      RunIndexed(trace, |trace| - 1);
      var s := Advance(state, c);
      ghost var still := undisturbed && c == runner;
      if still {
        AloneStays(state, c);
        OwnRunExtends(mark, c, state, s);
      }
      Become(c, s);
      undisturbed := still;
    }

    method Abandon(c: ClientId, applied: bool)
      requires Valid() && Live(state, c) && (applied ==> Enabled(state, c))
      modifies this`state, this`trace, this`undisturbed
      ensures Valid() && At(c, old(state).clients[c].call, Done(FailureOf(old(state).clients[c].pc)))
      ensures Confined(old(state), c, state)
      ensures old(trace) <= trace
    {
      RunIndexed(trace, |trace| - 1);
      var s := if applied then LostReply(state, c) else Abort(state, c);
      Become(c, s);
    }

    ghost predicate Calm(turn: Turn, me: ClientId, before: bool)
      reads this
    {
      before && me == runner && turn == QUIET
    }

    /** Other clients move; moves of `me`, of finished and of waiting clients do nothing. */
    method Interleave(me: ClientId, moves: seq<Move>)
      requires Valid() && me in state.clients
      modifies this`state, this`trace, this`undisturbed
      ensures Valid() && old(trace) <= trace
      ensures me in state.clients && state.clients[me] == old(state).clients[me]
      ensures moves == [] ==> state == old(state) && undisturbed == old(undisturbed)
    {
      for i := 0 to |moves|
        invariant Valid() && old(trace) <= trace
        invariant me in state.clients && state.clients[me] == old(state).clients[me]
        invariant i == 0 ==> state == old(state) && undisturbed == old(undisturbed)
      {
        var c := moves[i].client;
        if c != me && Live(state, c) {
          if moves[i].Fails? {
            Abandon(c, false);
          } else if Enabled(state, c) {
            if moves[i].Replies? { Perform(c); } else { Abandon(c, true); }
          }
        }
      }
    }

    /**
     Others move; then the statement of `me` is about to answer, unless it is refused, its answer is
     lost, or the lock it waits for is never granted.
     */
    method Await(me: ClientId, turn: Turn) returns (ok: bool)
      requires Valid() && Live(state, me)
      modifies this`state, this`trace, this`undisturbed
      ensures Valid() && old(trace) <= trace && me in state.clients
      ensures ok ==> Enabled(state, me) && state.clients[me] == old(state).clients[me]
      ensures !ok ==> At(me, old(state).clients[me].call, Done(FailureOf(old(state).clients[me].pc)))
      ensures Calm(turn, me, old(undisturbed)) ==> ok && undisturbed && state == old(state)
    {
      if Calm(turn, me, undisturbed) {
        AloneEnabled(state, me);
      }
      Interleave(me, turn.others);
      ok := turn.fault.NoFault? && Enabled(state, me);
      if !ok {
        Abandon(me, turn.fault.ReplyLost? && Enabled(state, me));
      }
    }

    // ----- Awaited statements: unless the turn ends in a failure, each reads the state it runs in,
    // ----- and leads to the control point that its answer calls for.

    /** Input validation, before the first await. */
    method Begin(me: ClientId, call: Call) returns (valid: bool)
      requires Valid() && At(me, call, Start)
      modifies this`state, this`trace, this`undisturbed
      ensures Valid() && old(trace) <= trace
      ensures old(undisturbed) && me == runner ==> undisturbed
      ensures valid <==> if IsOrder(call) then ValidInput(call.input) else QuantityOf(call) > 0
      ensures At(me, call, if !valid then Done(Failed(Validation)) else if IsOrder(call) then Lookup
                           else if call.LockedReserve? then AwaitLock else Read(1))
    {
      valid := if IsOrder(call) then ValidInput(call.input) else QuantityOf(call) > 0;
      Perform(me);
    }

    /** findByIdempotencyKey before the transaction. */
    method LookupKey(me: ClientId, call: Call, turn: Turn) returns (ok: bool, order: Option<Order>)
      requires Valid() && At(me, call, Lookup) && IsOrder(call)
      modifies this`state, this`trace, this`undisturbed
      ensures Valid() && old(trace) <= trace
      ensures Calm(turn, me, old(undisturbed)) ==> ok && undisturbed
      ensures !ok ==> At(me, call, Done(Failed(DatabaseFailure)))
      ensures ok ==> OrdersIndexed(Seen().db) && order == FindByKey(Seen().db, call.input.key)
      ensures ok ==> At(me, call, match order
                                  case Some(o) => Done(Resolve(o, InputFingerprint(call.input)))
                                  case None => if call.AtomicOrder? then AwaitLock else ReadProduct)
    {
      order := None;
      ok := Await(me, turn);
      if ok {
        RunIndexed(trace, |trace| - 1);
        order := FindByKey(state.db, call.input.key);
        Perform(me);
      }
    }

    method FindByIdForUpdate(me: ClientId, call: Call, turn: Turn) returns (ok: bool, product: Option<Product>)
      requires Valid() && At(me, call, AwaitLock)
      modifies this`state, this`trace, this`undisturbed
      ensures Valid() && old(trace) <= trace
      ensures Calm(turn, me, old(undisturbed)) ==> ok && undisturbed
      ensures !ok ==> At(me, call, Done(Failed(DatabaseFailure)))
      ensures ok ==> product == FindProduct(Seen().db, ProductOf(call))
      ensures ok ==> At(me, call, if call.AtomicOrder? then Recheck(product) else CheckStock(product, QuantityOf(call)))
    {
      product := None;
      ok := Await(me, turn);
      if ok {
        product := FindProduct(state.db, ProductOf(call));
        Perform(me);
      }
    }

    /** findByIdempotencyKey with the product row locked. */
    method RecheckKey(me: ClientId, call: Call, product: Option<Product>, turn: Turn) returns (ok: bool, order: Option<Order>)
      requires Valid() && At(me, call, Recheck(product)) && IsOrder(call)
      modifies this`state, this`trace, this`undisturbed
      ensures Valid() && old(trace) <= trace
      ensures Calm(turn, me, old(undisturbed)) ==> ok && undisturbed
      ensures !ok ==> At(me, call, Done(Failed(DatabaseFailure)))
      ensures ok ==> OrdersIndexed(Seen().db) && order == FindByKey(Seen().db, call.input.key)
      ensures ok ==> At(me, call, match order
                                  case None => CheckStock(product, QuantityOf(call))
                                  case Some(o) => Resolved(Resolve(o, InputFingerprint(call.input))))
    {
      order := None;
      ok := Await(me, turn);
      if ok {
        RunIndexed(trace, |trace| - 1);
        order := FindByKey(state.db, call.input.key);
        Perform(me);
      }
    }

    method ReserveLocked(me: ClientId, call: Call, row: Product, turn: Turn) returns (ok: bool, reserved: Option<Product>)
      requires Valid() && At(me, call, Reserve(row))
      modifies this`state, this`trace, this`undisturbed
      ensures Valid() && old(trace) <= trace
      ensures Calm(turn, me, old(undisturbed)) ==> ok && undisturbed
      ensures !ok ==> At(me, call, Done(Failed(DatabaseFailure)))
      ensures ok ==> reserved == Updated(Seen().db, call, None)
      ensures ok ==> At(me, call, match reserved
                                  case None => Rollback(Failed(InsufficientInventory))
                                  case Some(p) => if call.AtomicOrder? then Insert else Commit(Reserved(p)))
    {
      reserved := None;
      ok := Await(me, turn);
      if ok {
        reserved := Updated(state.db, call, None);
        Perform(me);
      }
    }

    /** INSERT .. ON CONFLICT (idempotency_key) DO NOTHING; a duplicate id is an error. */
    method InsertOrder(me: ClientId, call: Call, turn: Turn) returns (ok: bool, inserted: Insertion)
      requires Valid() && At(me, call, Insert) && IsOrder(call)
      modifies this`state, this`trace, this`undisturbed
      ensures Valid() && old(trace) <= trace
      ensures Calm(turn, me, old(undisturbed)) ==> ok && undisturbed
      ensures !ok ==> At(me, call, Done(Failed(DatabaseFailure)))
      ensures ok ==> inserted == InsertionOf(Seen().db, call)
      ensures ok ==> At(me, call, match inserted
                                  case Conflict => ReadBack
                                  case Inserted => if call.AtomicOrder? then InsertProcessing else CheckReference
                                  case DuplicateId =>
                                    if call.AtomicOrder? then Rollback(Failed(DatabaseFailure)) else Done(Failed(DatabaseFailure)))
    {
      inserted := Conflict;
      ok := Await(me, turn);
      if ok {
        inserted := InsertionOf(state.db, call);
        Perform(me);
      }
    }

    /** findByIdempotencyKey after a conflict: the winner is always there. */
    method ReadWinner(me: ClientId, call: Call, turn: Turn) returns (ok: bool, order: Option<Order>)
      requires Valid() && At(me, call, ReadBack) && IsOrder(call)
      modifies this`state, this`trace, this`undisturbed
      ensures Valid() && old(trace) <= trace
      ensures Calm(turn, me, old(undisturbed)) ==> ok && undisturbed
      ensures !ok ==> At(me, call, Done(Failed(DatabaseFailure)))
      ensures ok ==> OrdersIndexed(Seen().db) && order == FindByKey(Seen().db, call.input.key) && order.Some?
      ensures ok ==> var result := Resolve(order.value, InputFingerprint(call.input));
                     At(me, call, if call.AtomicOrder? then Rollback(result) else Done(result))
    {
      order := None;
      ok := Await(me, turn);
      if ok {
        ReadBackFinds(trace, |trace| - 1, me);
        order := FindByKey(state.db, call.input.key);
        ReadBackAnswers(state, me);
        Perform(me);
      }
    }

    method CreateProcessing(me: ClientId, call: Call, turn: Turn) returns (ok: bool)
      requires Valid() && At(me, call, InsertProcessing) && IsOrder(call)
      modifies this`state, this`trace, this`undisturbed
      ensures Valid() && old(trace) <= trace
      ensures Calm(turn, me, old(undisturbed)) ==> ok && undisturbed
      ensures At(me, call, if ok then Commit(Returned(RowOf(call))) else Done(Failed(DatabaseFailure)))
    {
      ok := Await(me, turn);
      if ok {
        ConstraintsHold(trace, |trace| - 1, me);
        RunIndexed(trace, |trace| - 1);
        ProcessingPasses(state, me);
        Perform(me);
      }
    }

    /** COMMIT of a returned result, or ROLLBACK after a throw. */
    method Finish(me: ClientId, call: Call, result: Outcome, turn: Turn) returns (ok: bool)
      requires Valid() && (At(me, call, Commit(result)) || At(me, call, Rollback(result)))
      modifies this`state, this`trace, this`undisturbed
      ensures Valid() && old(trace) <= trace
      ensures Calm(turn, me, old(undisturbed)) ==> ok && undisturbed
      ensures !ok ==> At(me, call, Done(FailureOf(old(state).clients[me].pc)))
      ensures ok ==> At(me, call, Done(result))
    {
      ok := Await(me, turn);
      if ok {
        Perform(me);
      }
    }

    /** The foreign key check that ends an insert outside a transaction. */
    method CheckForeignKey(me: ClientId, call: Call, turn: Turn) returns (ok: bool)
      requires Valid() && At(me, call, CheckReference) && IsOrder(call)
      modifies this`state, this`trace, this`undisturbed
      ensures Valid() && old(trace) <= trace
      ensures Calm(turn, me, old(undisturbed)) ==> ok && undisturbed
      ensures At(me, call, if ok then Publish(RowOf(call)) else Done(Failed(DatabaseFailure)))
    {
      ok := Await(me, turn);
      if ok {
        ConstraintsHold(trace, |trace| - 1, me);
        RunIndexed(trace, |trace| - 1);
        ReferencePasses(state, me);
        Perform(me);
      }
    }

    method PublishCreated(me: ClientId, call: Call, order: Order, turn: Turn) returns (ok: bool)
      requires Valid() && At(me, call, Publish(order))
      modifies this`state, this`trace, this`undisturbed
      ensures Valid() && old(trace) <= trace
      ensures Calm(turn, me, old(undisturbed)) ==> ok && undisturbed
      ensures At(me, call, Done(if ok then Returned(order) else Failed(DatabaseFailure)))
    {
      ok := Await(me, turn);
      if ok {
        Perform(me);
      }
    }

    method FindById(me: ClientId, call: Call, attempt: nat, turn: Turn) returns (ok: bool, product: Option<Product>)
      requires Valid() && (At(me, call, Read(attempt)) || At(me, call, ReadProduct))
      modifies this`state, this`trace, this`undisturbed
      ensures Valid() && old(trace) <= trace
      ensures Calm(turn, me, old(undisturbed)) ==> ok && undisturbed
      ensures !ok ==> At(me, call, Done(Failed(DatabaseFailure)))
      ensures ok ==> product == FindProduct(Seen().db, ProductOf(call))
      ensures ok ==> var next := if old(state).clients[me].pc.ReadProduct? then Insert
                                 else if product.Some? then Update(attempt, product.value) else Start;
                     At(me, call, CheckUnlocked(product, QuantityOf(call), next))
    {
      product := None;
      ok := Await(me, turn);
      if ok {
        product := FindProduct(state.db, ProductOf(call));
        RunIndexed(trace, |trace| - 1);
        ReadAnswers(state, me);
        Perform(me);
      }
    }

    method ReserveWithVersion(me: ClientId, call: Call, attempt: nat, seen: Product, turn: Turn)
      returns (ok: bool, reserved: Option<Product>)
      requires Valid() && At(me, call, Update(attempt, seen)) && call.OptimisticReserve?
      modifies this`state, this`trace, this`undisturbed
      ensures Valid() && old(trace) <= trace
      ensures Calm(turn, me, old(undisturbed)) ==> ok && undisturbed
      ensures !ok ==> At(me, call, Done(Failed(DatabaseFailure)))
      ensures ok ==> reserved == Updated(Seen().db, call, Some(seen.version))
      ensures ok ==> At(me, call, AfterUpdate(call, attempt, reserved))
    {
      reserved := None;
      ok := Await(me, turn);
      if ok {
        reserved := Updated(state.db, call, Some(seen.version));
        RunIndexed(trace, |trace| - 1);
        UpdateAnswers(state, me);
        Perform(me);
      }
    }
  }

  datatype Insertion = Inserted | Conflict | DuplicateId

  function InsertionOf(db: Database, call: Call): Insertion
    requires IsOrder(call)
  {
    if KeyTaken(db, call.input.key) then Conflict else if call.id in db.orders then DuplicateId else Inserted
  }

  /** The row a guarded update of the call's product returns. */
  function Updated(db: Database, call: Call, version: Option<int>): Option<Product>
  {
    if Matches(db, ProductOf(call), QuantityOf(call), version)
    then Some(Debit(db.products[ProductOf(call)], QuantityOf(call))) else None
  }

  /** A replayed order is returned by committing, a refused key by rolling back. */
  function Resolved(result: Outcome): Pc
  {
    if result.Returned? then Commit(result) else Rollback(result)
  }

  /** The operation has returned or thrown: its transaction ends next, unless a statement's failure ended it. */
  ghost predicate Ended(store: Store, me: ClientId, call: Call, result: Outcome)
    reads store
  {
    store.At(me, call, Commit(result)) || store.At(me, call, Rollback(result)) || store.At(me, call, Done(result))
  }

  /** COMMIT after a return, ROLLBACK after a throw. */
  method EndTransaction(store: Store, me: ClientId, call: Call, outcome: Outcome, turn: Turn) returns (result: Outcome)
    requires store.Valid() && Ended(store, me, call, outcome)
    modifies store`state, store`trace, store`undisturbed
    ensures store.Valid() && old(store.trace) <= store.trace
    ensures old(store.undisturbed) && me == store.runner && turn == QUIET ==> store.undisturbed
    ensures store.At(me, call, Done(result))
    ensures result == outcome || (result == Failed(DatabaseFailure) && old(store.At(me, call, Commit(outcome))))
  {
    result := outcome;
    if !store.state.clients[me].pc.Done? {
      var ok := store.Finish(me, call, outcome, turn);
      result := store.state.clients[me].pc.result;
    }
  }

  lemma Untouched(states: seq<State>, i: nat, c: ClientId)
    requires Run(states) && i < |states| && c in states[i].clients && states[i].clients[c].pc.Start?
    ensures states[i].clients[c].writes == NO_WRITES && Recorded(states[i].db) && DatabaseOk(states[i].db)
  {
    RunKeeps(states, i);
    assert ClientAt(states[i], c);
  }

  /** An undisturbed call has done what its sequential meaning says. */
  lemma Concludes(states: seq<State>, before: State, me: ClientId, call: Call, end: State, result: Outcome)
    requires Run(states) && states[|states| - 1] == before
    requires me in before.clients && before.clients[me].call == call && before.clients[me].pc.Start?
    requires OwnRun(before, me, end) && Finished(end, me, result)
    ensures MeansAlone(before.db, call, result, end.db)
  {
    Untouched(states, |states| - 1, me);
    if IsOrder(call) {
      UndisturbedOrder(before, me, end, result);
      SequentialMeans(before.db, call, result, end.db);
    } else {
      UndisturbedReservation(before, me, end, result);
      SequentialReservationMeans(before.db, call, result, end.db);
    }
  }

  /** What a call answers and leaves in the tables when nothing disturbs it. */
  ghost predicate MeansAlone(before: Database, call: Call, result: Outcome, after: Database)
  {
    if IsOrder(call) then Sequential(before, call, result, after) && OrderMeans(before, call, result, after)
    else
      && result == Reservation(before, ProductOf(call), QuantityOf(call))
      && after == AfterReservation(before, ProductOf(call), QuantityOf(call))
      && ReservationMeans(before, call, result, after)
  }

  /** What an answer means whatever others do: for the tables, for the commit log, and for the request. */
  ghost predicate Means(now: State, me: ClientId, call: Call, result: Outcome)
  {
    && Honest(now, me, result) && Warranted(now.db, call, result)
    && (result.Returned? ==> IsOrder(call) && CommittedFor(now.db, call.input, result.order))
  }

  lemma AnswerMeans(store: Store, me: ClientId, call: Call, result: Outcome)
    requires store.Valid() && store.At(me, call, Done(result))
    ensures Means(store.state, me, call, result)
  {
    var i := |store.trace| - 1;
    RunKeeps(store.trace, i);
    assert ClientAt(store.state, me);
    RunHonest(store.trace, i, me, result);
    AnswersWarranted(store.trace, i, me);
  }

  // ----- createAtomicOrderService

  /** The operation run inside the transaction: lock, recheck, reserve, insert, record. */
  method PlaceOrder(store: Store, me: ClientId, call: Call, turns: Schedule) returns (result: Outcome)
    requires store.Valid() && store.At(me, call, AwaitLock) && call.AtomicOrder?
    modifies store`state, store`trace, store`undisturbed
    ensures store.Valid() && old(store.trace) <= store.trace
    ensures old(store.undisturbed) && me == store.runner && Quiet(turns) ==> store.undisturbed
    ensures Ended(store, me, call, result)
  {
    var ok, product := store.FindByIdForUpdate(me, call, turns(1));
    if !ok { return Failed(DatabaseFailure); }
    var found, concurrentOrder := store.RecheckKey(me, call, product, turns(2));
    if !found { return Failed(DatabaseFailure); }
    if concurrentOrder.Some? {
      return Resolve(concurrentOrder.value, InputFingerprint(call.input));
    }
    if product.None? {
      return Failed(ProductNotFound);
    }
    if product.value.stock < call.input.quantity {
      return Failed(InsufficientInventory);
    }
    result := ReserveAndRecord(store, me, call, product.value, turns);
  }

  method ReserveAndRecord(store: Store, me: ClientId, call: Call, product: Product, turns: Schedule) returns (result: Outcome)
    requires store.Valid() && store.At(me, call, Reserve(product)) && call.AtomicOrder?
    modifies store`state, store`trace, store`undisturbed
    ensures store.Valid() && old(store.trace) <= store.trace
    ensures old(store.undisturbed) && me == store.runner && Quiet(turns) ==> store.undisturbed
    ensures Ended(store, me, call, result)
  {
    var ok, reserved := store.ReserveLocked(me, call, product, turns(3));
    if !ok { return Failed(DatabaseFailure); }
    if reserved.None? {
      return Failed(InsufficientInventory);
    }
    result := RecordOrder(store, me, call, turns);
  }

  method RecordOrder(store: Store, me: ClientId, call: Call, turns: Schedule) returns (result: Outcome)
    requires store.Valid() && store.At(me, call, Insert) && call.AtomicOrder?
    modifies store`state, store`trace, store`undisturbed
    ensures store.Valid() && old(store.trace) <= store.trace
    ensures old(store.undisturbed) && me == store.runner && Quiet(turns) ==> store.undisturbed
    ensures Ended(store, me, call, result)
  {
    result := Failed(DatabaseFailure);
    var ok, inserted := store.InsertOrder(me, call, turns(4));
    if ok && inserted.Conflict? {
      var found, winner := store.ReadWinner(me, call, turns(5));
      if found {
        result := Resolve(winner.value, InputFingerprint(call.input));
      }
    } else if ok && inserted.Inserted? {
      var recorded := store.CreateProcessing(me, call, turns(6));
      if recorded {
        result := Returned(RowOf(call));
      }
    }
  }

  method RunAtomicOrder(store: Store, me: ClientId, call: Call, turns: Schedule) returns (result: Outcome)
    requires store.Valid() && store.At(me, call, Start) && call.AtomicOrder?
    modifies store`state, store`trace, store`undisturbed
    ensures store.Valid() && old(store.trace) <= store.trace
    ensures old(store.undisturbed) && me == store.runner && Quiet(turns) ==> store.undisturbed
    ensures store.At(me, call, Done(result))
  {
    var valid := store.Begin(me, call);
    if !valid {
      result := Failed(Validation);
    } else {
      result := LookupOrPlace(store, me, call, turns);
    }
  }

  /** createOrder of the atomic service, whatever the other clients do and whichever statement fails. */
  method CreateAtomicOrder(store: Store, me: ClientId, call: Call, turns: Schedule) returns (result: Outcome)
    requires store.Valid() && store.At(me, call, Start) && call.AtomicOrder?
    modifies store
    ensures store.Valid() && old(store.trace) <= store.trace
    ensures store.At(me, call, Done(result)) && Means(store.state, me, call, result)
    ensures Quiet(turns) && Alone(old(store.state), me) ==> MeansAlone(old(store.state).db, call, result, store.state.db)
  {
    ghost var states, before := store.trace, store.state;
    store.Watch(me);
    result := RunAtomicOrder(store, me, call, turns);
    AnswerMeans(store, me, call, result);
    if Quiet(turns) && Alone(before, me) {
      Concludes(states, before, me, call, store.state, result);
    }
  }

  method LookupOrPlace(store: Store, me: ClientId, call: Call, turns: Schedule) returns (result: Outcome)
    requires store.Valid() && store.At(me, call, Lookup) && call.AtomicOrder?
    modifies store`state, store`trace, store`undisturbed
    ensures store.Valid() && old(store.trace) <= store.trace
    ensures old(store.undisturbed) && me == store.runner && Quiet(turns) ==> store.undisturbed
    ensures store.At(me, call, Done(result))
  {
    var ok, existing := store.LookupKey(me, call, turns(0));
    if !ok { return Failed(DatabaseFailure); }
    if existing.Some? {
      return Resolve(existing.value, InputFingerprint(call.input));
    }
    result := PlaceOrder(store, me, call, turns);
    result := EndTransaction(store, me, call, result, turns(7));
  }

  // ----- createOrderService

  method RunOrder(store: Store, me: ClientId, call: Call, turns: Schedule) returns (result: Outcome)
    requires store.Valid() && store.At(me, call, Start) && call.UnlockedOrder?
    modifies store`state, store`trace, store`undisturbed
    ensures store.Valid() && old(store.trace) <= store.trace
    ensures old(store.undisturbed) && me == store.runner && Quiet(turns) ==> store.undisturbed
    ensures store.At(me, call, Done(result))
  {
    var valid := store.Begin(me, call);
    if !valid {
      result := Failed(Validation);
    } else {
      result := LookupOrInsert(store, me, call, turns);
    }
  }

  /** createOrder outside a transaction; the publisher runs after the order is committed. */
  method CreateOrder(store: Store, me: ClientId, call: Call, turns: Schedule) returns (result: Outcome)
    requires store.Valid() && store.At(me, call, Start) && call.UnlockedOrder?
    modifies store
    ensures store.Valid() && old(store.trace) <= store.trace
    ensures store.At(me, call, Done(result)) && Means(store.state, me, call, result)
    ensures Quiet(turns) && Alone(old(store.state), me) ==> MeansAlone(old(store.state).db, call, result, store.state.db)
  {
    ghost var states, before := store.trace, store.state;
    store.Watch(me);
    result := RunOrder(store, me, call, turns);
    AnswerMeans(store, me, call, result);
    if Quiet(turns) && Alone(before, me) {
      Concludes(states, before, me, call, store.state, result);
    }
  }

  method LookupOrInsert(store: Store, me: ClientId, call: Call, turns: Schedule) returns (result: Outcome)
    requires store.Valid() && store.At(me, call, Lookup) && call.UnlockedOrder?
    modifies store`state, store`trace, store`undisturbed
    ensures store.Valid() && old(store.trace) <= store.trace
    ensures old(store.undisturbed) && me == store.runner && Quiet(turns) ==> store.undisturbed
    ensures store.At(me, call, Done(result))
  {
    var ok, existing := store.LookupKey(me, call, turns(0));
    if !ok { return Failed(DatabaseFailure); }
    if existing.Some? {
      return Resolve(existing.value, InputFingerprint(call.input));
    }
    result := CheckAndInsert(store, me, call, turns);
  }

  method CheckAndInsert(store: Store, me: ClientId, call: Call, turns: Schedule) returns (result: Outcome)
    requires store.Valid() && store.At(me, call, ReadProduct) && call.UnlockedOrder?
    modifies store`state, store`trace, store`undisturbed
    ensures store.Valid() && old(store.trace) <= store.trace
    ensures old(store.undisturbed) && me == store.runner && Quiet(turns) ==> store.undisturbed
    ensures store.At(me, call, Done(result))
  {
    var found, product := store.FindById(me, call, 0, turns(1));
    if !found { return Failed(DatabaseFailure); }
    if product.None? {
      return Failed(ProductNotFound);
    }
    if product.value.stock < call.input.quantity {
      return Failed(InsufficientInventory);
    }
    result := InsertAndPublish(store, me, call, turns);
  }

  method InsertAndPublish(store: Store, me: ClientId, call: Call, turns: Schedule) returns (result: Outcome)
    requires store.Valid() && store.At(me, call, Insert) && call.UnlockedOrder?
    modifies store`state, store`trace, store`undisturbed
    ensures store.Valid() && old(store.trace) <= store.trace
    ensures old(store.undisturbed) && me == store.runner && Quiet(turns) ==> store.undisturbed
    ensures store.At(me, call, Done(result))
  {
    result := Failed(DatabaseFailure);
    var ok, inserted := store.InsertOrder(me, call, turns(2));
    if ok && inserted.Conflict? {
      var found, winner := store.ReadWinner(me, call, turns(3));
      if found {
        result := Resolve(winner.value, InputFingerprint(call.input));
      }
    } else if ok && inserted.Inserted? {
      result := Confirm(store, me, call, turns);
    }
  }

  method Confirm(store: Store, me: ClientId, call: Call, turns: Schedule) returns (result: Outcome)
    requires store.Valid() && store.At(me, call, CheckReference) && call.UnlockedOrder?
    modifies store`state, store`trace, store`undisturbed
    ensures store.Valid() && old(store.trace) <= store.trace
    ensures old(store.undisturbed) && me == store.runner && Quiet(turns) ==> store.undisturbed
    ensures store.At(me, call, Done(result))
  {
    var ok := store.CheckForeignKey(me, call, turns(4));
    if !ok { return Failed(DatabaseFailure); }
    var published := store.PublishCreated(me, call, RowOf(call), turns(5));
    result := if published then Returned(RowOf(call)) else Failed(DatabaseFailure);
  }

  // ----- Inventory reservation

  method ReserveRow(store: Store, me: ClientId, call: Call, turns: Schedule) returns (result: Outcome)
    requires store.Valid() && store.At(me, call, AwaitLock) && call.LockedReserve?
    modifies store`state, store`trace, store`undisturbed
    ensures store.Valid() && old(store.trace) <= store.trace
    ensures old(store.undisturbed) && me == store.runner && Quiet(turns) ==> store.undisturbed
    ensures Ended(store, me, call, result)
  {
    var ok, product := store.FindByIdForUpdate(me, call, turns(0));
    if !ok { return Failed(DatabaseFailure); }
    if product.None? {
      return Failed(ProductNotFound);
    }
    if product.value.stock < call.quantity {
      return Failed(InsufficientInventory);
    }
    var done, reserved := store.ReserveLocked(me, call, product.value, turns(1));
    if !done { return Failed(DatabaseFailure); }
    result := if reserved.Some? then Reserved(reserved.value) else Failed(InsufficientInventory);
  }

  method RunLockedReserve(store: Store, me: ClientId, call: Call, turns: Schedule) returns (result: Outcome)
    requires store.Valid() && store.At(me, call, Start) && call.LockedReserve?
    modifies store`state, store`trace, store`undisturbed
    ensures store.Valid() && old(store.trace) <= store.trace
    ensures old(store.undisturbed) && me == store.runner && Quiet(turns) ==> store.undisturbed
    ensures store.At(me, call, Done(result))
  {
    var valid := store.Begin(me, call);
    if !valid { return Failed(Validation); }
    result := ReserveRow(store, me, call, turns);
    result := EndTransaction(store, me, call, result, turns(2));
  }

  /** The pessimistic reserver. */
  method ReservePessimistically(store: Store, me: ClientId, call: Call, turns: Schedule) returns (result: Outcome)
    requires store.Valid() && store.At(me, call, Start) && call.LockedReserve?
    modifies store
    ensures store.Valid() && old(store.trace) <= store.trace
    ensures store.At(me, call, Done(result)) && Means(store.state, me, call, result)
    ensures Quiet(turns) && Alone(old(store.state), me) ==> MeansAlone(old(store.state).db, call, result, store.state.db)
  {
    ghost var states, before := store.trace, store.state;
    store.Watch(me);
    result := RunLockedReserve(store, me, call, turns);
    AnswerMeans(store, me, call, result);
    if Quiet(turns) && Alone(before, me) {
      Concludes(states, before, me, call, store.state, result);
    }
  }

  method ReadAndUpdate(store: Store, me: ClientId, call: Call, attempt: nat, turns: Schedule) returns (result: Option<Outcome>)
    requires store.Valid() && call.OptimisticReserve? && 1 <= attempt <= call.maxRetries + 1
    requires store.At(me, call, Read(attempt))
    modifies store`state, store`trace, store`undisturbed
    ensures store.Valid() && old(store.trace) <= store.trace
    ensures old(store.undisturbed) && me == store.runner && Quiet(turns) ==> store.undisturbed
    ensures store.At(me, call, if result.Some? then Done(result.value)
                               else if attempt < call.maxRetries + 1 then Read(attempt + 1) else Done(Failed(RetriesExhausted)))
  {
    var ok, product := store.FindById(me, call, attempt, turns(2 * attempt));
    if !ok { return Some(Failed(DatabaseFailure)); }
    if product.None? {
      return Some(Failed(ProductNotFound));
    }
    if product.value.stock < call.quantity {
      return Some(Failed(InsufficientInventory));
    }
    var done, reserved := store.ReserveWithVersion(me, call, attempt, product.value, turns(2 * attempt + 1));
    if !done { return Some(Failed(DatabaseFailure)); }
    result := if reserved.Some? then Some(Reserved(reserved.value)) else None;
  }

  /** One round of the optimistic reserver: read, then try to update at the version read. */
  method TryReserve(store: Store, me: ClientId, call: Call, attempt: nat, turns: Schedule) returns (result: Option<Outcome>)
    requires store.Valid() && call.OptimisticReserve? && 1 <= attempt <= call.maxRetries + 1
    requires store.At(me, call, Read(attempt))
    modifies store`state, store`trace, store`undisturbed
    ensures store.Valid() && old(store.trace) <= store.trace
    ensures old(store.undisturbed) && me == store.runner && Quiet(turns) ==> store.undisturbed
    ensures store.At(me, call, if result.Some? then Done(result.value)
                               else if attempt < call.maxRetries + 1 then Read(attempt + 1) else Done(Failed(RetriesExhausted)))
    ensures result.Some? ==> Honest(store.state, me, result.value)
  {
    result := ReadAndUpdate(store, me, call, attempt, turns);
    if result.Some? {
      RunHonest(store.trace, |store.trace| - 1, me, result.value);
    }
  }

  method RunOptimisticReserve(store: Store, me: ClientId, call: Call, turns: Schedule) returns (result: Outcome)
    requires store.Valid() && store.At(me, call, Start) && call.OptimisticReserve?
    modifies store`state, store`trace, store`undisturbed
    ensures store.Valid() && old(store.trace) <= store.trace
    ensures old(store.undisturbed) && me == store.runner && Quiet(turns) ==> store.undisturbed
    ensures store.At(me, call, Done(result))
  {
    var valid := store.Begin(me, call);
    if !valid { return Failed(Validation); }

    var attempt := 1;
    while attempt <= call.maxRetries + 1
      invariant 1 <= attempt <= call.maxRetries + 2
      invariant store.Valid() && old(store.trace) <= store.trace
      invariant store.At(me, call, if attempt <= call.maxRetries + 1 then Read(attempt) else Done(Failed(RetriesExhausted)))
      invariant old(store.undisturbed) && me == store.runner && Quiet(turns) ==> store.undisturbed
    {
      var reserved := TryReserve(store, me, call, attempt, turns);
      if reserved.Some? {
        return reserved.value;
      }
      attempt := attempt + 1;
    }
    result := Failed(RetriesExhausted);
  }

  /** The optimistic reserver starts over on a conflict, while it has retries left. */
  method ReserveOptimistically(store: Store, me: ClientId, call: Call, turns: Schedule) returns (result: Outcome)
    requires store.Valid() && store.At(me, call, Start) && call.OptimisticReserve?
    modifies store
    ensures store.Valid() && old(store.trace) <= store.trace
    ensures store.At(me, call, Done(result)) && Means(store.state, me, call, result)
    ensures Quiet(turns) && Alone(old(store.state), me) ==> MeansAlone(old(store.state).db, call, result, store.state.db)
  {
    ghost var states, before := store.trace, store.state;
    store.Watch(me);
    result := RunOptimisticReserve(store, me, call, turns);
    AnswerMeans(store, me, call, result);
    if Quiet(turns) && Alone(before, me) {
      Concludes(states, before, me, call, store.state, result);
    }
  }
}
