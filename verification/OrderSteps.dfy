/** Every step of every client keeps the invariant, hence it holds along every run. */
module OrderSteps {
  import opened Wrappers
  import opened JsText
  import opened OrderMachine
  import opened OrderInvariant

  /** Client `c` may go on as `cl`: it takes and releases nothing and satisfies its part of the invariant. */
  ghost predicate GoesOn(s: State, c: ClientId, cl: Client)
  {
    && c in s.clients && cl.call == s.clients[c].call
    && cl.locked == s.clients[c].locked && cl.writes.order == s.clients[c].writes.order
    && ClientOk(s.db, s.history, cl) && cl.mark <= |s.history|
  }

  lemma GotoKeeps(s: State, c: ClientId, cl: Client)
    requires Inv(s) && Live(s, c) && !s.clients[c].pc.Publish?
    requires cl.call == s.clients[c].call
    requires cl.locked == s.clients[c].locked && cl.writes.order == s.clients[c].writes.order
    requires ClientOk(s.db, s.history, cl) && cl.mark <= |s.history|
    ensures Inv(Goto(s, c, cl))
  {
    MoveKeeps(s, c, cl, {}, Goto(s, c, cl));
  }

  /** Ending a call without committing anything. */
  lemma EndKeeps(s: State, c: ClientId, result: Outcome)
    requires Inv(s) && Live(s, c)
    requires Answers(s.db, s.clients[c].call, result)
    requires result == Failed(RetriesExhausted) ==>
               s.clients[c].call.OptimisticReserve?
               && CountSince(s.history, s.clients[c].mark, ProductOf(s.clients[c].call)) >= s.clients[c].call.maxRetries + 1
    ensures Inv(Settle(s, c, NO_WRITES, Done(result)))
  {
    assert ClientAt(s, c);
    SettleKeeps(s, c, NO_WRITES, Done(result));
  }

  lemma EffectsOk(s: State, c: ClientId)
    requires Live(s, c) && ClientAt(s, c)
    ensures WritesOk(s.db, s.clients[c].call, Effects(s, c))
  {}

  predicate HoldsFor(s: State, c: ClientId, w: Writes)
    requires c in s.clients
  {
    var call := s.clients[c].call;
    && (w.product.Some? ==> !OtherHolds(s, c, ProductRow(ProductOf(call))))
    && (w.order.Some? ==> IsOrder(call) && !OtherHolds(s, c, OrderKey(call.input.key)) && !OtherHolds(s, c, OrderId(call.id)))
  }

  lemma EffectsHeld(s: State, c: ClientId)
    requires HoldingsHeld(s) && Enabled(s, c) && ClientAt(s, c)
    ensures HoldsFor(s, c, Effects(s, c))
  {
    var cl := s.clients[c];
    if cl.pc.Commit? && cl.writes.product.Some? {
      assert Accounts(cl, ProductRow(ProductOf(cl.call)));
    }
    if (cl.pc.Commit? || cl.pc.CheckReference?) && cl.writes.order.Some? {
      assert Accounts(cl, OrderKey(cl.call.input.key)) && Accounts(cl, OrderId(cl.call.id));
    }
  }

  /** What a statement commits is allowed by the tables and held by nobody else. */
  lemma EffectsAllowed(s: State, c: ClientId)
    requires Inv(s) && Enabled(s, c)
    ensures var cl, w := s.clients[c], Effects(s, c);
            && WritesOk(s.db, cl.call, w)
            && (w.product.Some? ==> !OtherHolds(s, c, ProductRow(ProductOf(cl.call))))
            && (w.order.Some? ==> !OtherHolds(s, c, OrderKey(cl.call.input.key)) && !OtherHolds(s, c, OrderId(cl.call.id)))
            && (w != NO_WRITES ==> cl.pc.Commit? || cl.pc.CheckReference? || cl.pc.Update?)
  {
    assert ClientAt(s, c);
    EffectsOk(s, c);
    EffectsHeld(s, c);
  }

  /** The row an order call commits is the answer to that call. */
  lemma RowAnswers(db: Database, call: Call, w: Writes)
    requires WritesOk(db, call, w) && w.order.Some?
    ensures CommittedFor(Apply(db, ProductOf(call), w), call.input, RowOf(call))
  {}

  lemma EffectsKeep(s: State, c: ClientId, pc: Pc)
    requires Inv(s) && Enabled(s, c)
    requires pc.Done? || (pc.Publish? && Effects(s, c).order.Some? && s.clients[c].call.UnlockedOrder?)
    requires pc.Publish? ==> pc.order == RowOf(s.clients[c].call)
    requires pc.Done? ==> pc.result != Failed(RetriesExhausted)
    requires pc.Done? && pc.result.Returned? ==>
               || (Effects(s, c).order.Some? && pc.result.order == RowOf(s.clients[c].call))
               || (IsOrder(s.clients[c].call) && CommittedFor(s.db, s.clients[c].call.input, pc.result.order))
    ensures Inv(Settle(s, c, Effects(s, c), pc))
  {
    var cl, w := s.clients[c], Effects(s, c);
    EffectsAllowed(s, c);
    assert ClientAt(s, c);
    if w.order.Some? {
      RowAnswers(s.db, cl.call, w);
    }
    SettleKeeps(s, c, w, pc);
  }

  lemma AbortKeeps(s: State, c: ClientId)
    requires Inv(s) && Live(s, c)
    ensures Inv(Abort(s, c))
  {
    assert ClientAt(s, c);
    EndKeeps(s, c, FailureOf(s.clients[c].pc));
  }

  lemma LostReplyKeeps(s: State, c: ClientId)
    requires Inv(s) && Enabled(s, c)
    ensures Inv(LostReply(s, c))
  {
    if s.clients[c].pc.Rollback? {
      assert LostReply(s, c) == Abort(s, c);
      AbortKeeps(s, c);
    } else {
      EffectsKeep(s, c, Done(Failed(DatabaseFailure)));
    }
  }

  // ----- One lemma per control point

  lemma StartKeeps(s: State, c: ClientId)
    requires Inv(s) && Enabled(s, c) && s.clients[c].pc.Start?
    ensures Inv(Advance(s, c))
  {
    var cl := s.clients[c];
    assert ClientAt(s, c);
    var s' := Advance(s, c);
    if s'.clients[c].pc.Done? {
      EndKeeps(s, c, Failed(Validation));
    } else {
      assert s.history[|s.history|..] == [];
      GotoKeeps(s, c, s'.clients[c]);
    }
  }

  /** Resolving the order found under a key answers that order or refuses the key. */
  lemma ResolveAnswers(db: Database, call: Call, o: Order)
    requires OrdersIndexed(db) && IsOrder(call) && FindByKey(db, call.input.key) == Some(o)
    ensures var result := Resolve(o, InputFingerprint(call.input));
            Answers(db, call, result) && (result == Returned(o) || result == Failed(KeyReused))
  {}

  /** What the first lookup of an order call leads to. */
  lemma LookupChecks(s: State, c: ClientId)
    requires Live(s, c) && OrdersIndexed(s.db) && s.clients[c].pc.Lookup? && ClientAt(s, c)
    ensures var cl, s' := s.clients[c], Advance(s, c);
            && IsOrder(cl.call)
            && match FindByKey(s.db, cl.call.input.key)
               case None => s' == Goto(s, c, s'.clients[c]) && GoesOn(s, c, s'.clients[c])
               case Some(o) => s' == Settle(s, c, NO_WRITES, Done(Resolve(o, InputFingerprint(cl.call.input))))
  {}

  lemma LookupKeeps(s: State, c: ClientId)
    requires Inv(s) && Enabled(s, c) && s.clients[c].pc.Lookup?
    ensures Inv(Advance(s, c))
  {
    var cl, s' := s.clients[c], Advance(s, c);
    assert ClientAt(s, c);
    LookupChecks(s, c);
    match FindByKey(s.db, cl.call.input.key)
    case Some(o) =>
      ResolveAnswers(s.db, cl.call, o);
      EndKeeps(s, c, Resolve(o, InputFingerprint(cl.call.input)));
    case None => GotoKeeps(s, c, s'.clients[c]);
  }

  lemma LockMoves(s: State, c: ClientId)
    requires Enabled(s, c) && OrdersIndexed(s.db) && s.clients[c].pc.AwaitLock? && !s.clients[c].locked
    requires ProductOf(s.clients[c].call) in s.db.products
    ensures Moves(s, c, Advance(s, c).clients[c], {ProductRow(ProductOf(s.clients[c].call))}, Advance(s, c))
  {
    var cl, s', row := s.clients[c], Advance(s, c), ProductRow(ProductOf(s.clients[c].call));
    assert !OtherHolds(s, c, row);
    forall r ensures Accounts(s'.clients[c], r) <==> Accounts(cl, r) || r in {row} {}
  }

  lemma LockChecks(s: State, c: ClientId)
    requires Live(s, c) && OrdersIndexed(s.db) && s.clients[c].pc.AwaitLock? && ClientAt(s, c)
    ensures ClientOk(s.db, s.history, Advance(s, c).clients[c])
  {}

  lemma LockTakes(s: State, c: ClientId)
    requires Inv(s) && Enabled(s, c) && s.clients[c].pc.AwaitLock? && ProductOf(s.clients[c].call) in s.db.products
    ensures Inv(Advance(s, c))
  {
    assert ClientAt(s, c);
    LockChecks(s, c);
    LockMoves(s, c);
    MoveKeeps(s, c, Advance(s, c).clients[c], {ProductRow(ProductOf(s.clients[c].call))}, Advance(s, c));
  }

  lemma LockKeeps(s: State, c: ClientId)
    requires Inv(s) && Enabled(s, c) && s.clients[c].pc.AwaitLock?
    ensures Inv(Advance(s, c))
  {
    assert ClientAt(s, c);
    LockChecks(s, c);
    if ProductOf(s.clients[c].call) in s.db.products {
      LockTakes(s, c);
    } else {
      GotoKeeps(s, c, Advance(s, c).clients[c]);
    }
  }

  lemma RecheckFinds(s: State, c: ClientId, o: Order)
    requires Inv(s) && Enabled(s, c) && s.clients[c].pc.Recheck?
    requires FindByKey(s.db, s.clients[c].call.input.key) == Some(o)
    ensures Inv(Advance(s, c))
  {
    var cl := s.clients[c];
    assert ClientAt(s, c);
    ResolveAnswers(s.db, cl.call, o);
    var result := Resolve(o, InputFingerprint(cl.call.input));
    GotoKeeps(s, c, cl.(pc := if result.Returned? then Commit(result) else Rollback(result)));
  }

  lemma RecheckKeeps(s: State, c: ClientId)
    requires Inv(s) && Enabled(s, c) && s.clients[c].pc.Recheck?
    ensures Inv(Advance(s, c))
  {
    match FindByKey(s.db, s.clients[c].call.input.key)
    case Some(o) => RecheckFinds(s, c, o);
    case None => RecheckMisses(s, c);
  }

  lemma RecheckChecks(s: State, c: ClientId)
    requires Live(s, c) && OrdersIndexed(s.db) && s.clients[c].pc.Recheck? && ClientAt(s, c)
    requires FindByKey(s.db, s.clients[c].call.input.key) == None
    ensures var s' := Advance(s, c); s' == Goto(s, c, s'.clients[c]) && GoesOn(s, c, s'.clients[c])
  {}

  lemma RecheckMisses(s: State, c: ClientId)
    requires Inv(s) && Enabled(s, c) && s.clients[c].pc.Recheck?
    requires FindByKey(s.db, s.clients[c].call.input.key) == None
    ensures Inv(Advance(s, c))
  {
    assert ClientAt(s, c);
    RecheckChecks(s, c);
    GotoKeeps(s, c, Advance(s, c).clients[c]);
  }

  lemma ReserveKeeps(s: State, c: ClientId)
    requires Inv(s) && Enabled(s, c) && s.clients[c].pc.Reserve?
    ensures Inv(Advance(s, c))
  {
    assert ClientAt(s, c);
    GotoKeeps(s, c, Advance(s, c).clients[c]);
  }

  lemma InsertKeeps(s: State, c: ClientId)
    requires Inv(s) && Enabled(s, c) && s.clients[c].pc.Insert?
    ensures Inv(Advance(s, c))
  {
    var cl := s.clients[c];
    assert ClientAt(s, c);
    if KeyTaken(s.db, cl.call.input.key) {
      GotoKeeps(s, c, cl.(pc := ReadBack));
    } else if cl.call.id !in s.db.orders {
      InsertsFreely(s, c);
    } else if cl.call.AtomicOrder? {
      GotoKeeps(s, c, cl.(pc := Rollback(Failed(DatabaseFailure))));
    } else {
      EndKeeps(s, c, Failed(DatabaseFailure));
    }
  }

  /** The key and id slots are taken together with the in-flight row. */
  lemma InsertMoves(s: State, c: ClientId)
    requires Enabled(s, c) && OrdersIndexed(s.db) && s.clients[c].pc.Insert? && IsOrder(s.clients[c].call)
    requires s.clients[c].writes.order.None?
    requires !KeyTaken(s.db, s.clients[c].call.input.key) && s.clients[c].call.id !in s.db.orders
    ensures var call, s' := s.clients[c].call, Advance(s, c);
            Moves(s, c, s'.clients[c], {OrderKey(call.input.key), OrderId(call.id)}, s')
  {
    var cl, s' := s.clients[c], Advance(s, c);
    var taken := {OrderKey(cl.call.input.key), OrderId(cl.call.id)};
    forall r | r in taken ensures !OtherHolds(s, c, r) {}
    forall r ensures Accounts(s'.clients[c], r) <==> Accounts(cl, r) || r in taken {}
  }

  lemma InsertsFreely(s: State, c: ClientId)
    requires Inv(s) && Enabled(s, c) && s.clients[c].pc.Insert?
    requires IsOrder(s.clients[c].call)
    requires !KeyTaken(s.db, s.clients[c].call.input.key) && s.clients[c].call.id !in s.db.orders
    ensures Inv(Advance(s, c))
  {
    var cl, s' := s.clients[c], Advance(s, c);
    assert ClientAt(s, c);
    InsertMoves(s, c);
    assert InsertsRow(s.db, cl.call, s'.clients[c].writes);
    MoveKeeps(s, c, s'.clients[c], {OrderKey(cl.call.input.key), OrderId(cl.call.id)}, s');
  }

  lemma ReadBackKeeps(s: State, c: ClientId)
    requires Inv(s) && Enabled(s, c) && s.clients[c].pc.ReadBack?
    ensures Inv(Advance(s, c))
  {
    var cl := s.clients[c];
    assert ClientAt(s, c);
    var o := FindByKey(s.db, cl.call.input.key).value;
    ResolveAnswers(s.db, cl.call, o);
    var result := Resolve(o, InputFingerprint(cl.call.input));
    if cl.call.AtomicOrder? {
      GotoKeeps(s, c, cl.(pc := Rollback(result)));
    } else {
      EndKeeps(s, c, result);
    }
  }

  lemma InsertProcessingKeeps(s: State, c: ClientId)
    requires Inv(s) && Enabled(s, c) && s.clients[c].pc.InsertProcessing?
    ensures Inv(Advance(s, c))
  {
    assert ClientAt(s, c);
    GotoKeeps(s, c, Advance(s, c).clients[c]);
  }

  lemma FinishKeeps(s: State, c: ClientId)
    requires Inv(s) && Enabled(s, c)
    requires s.clients[c].pc.Commit? || s.clients[c].pc.Rollback? || s.clients[c].pc.Publish?
    ensures Inv(Advance(s, c))
  {
    assert ClientAt(s, c);
    match s.clients[c].pc
    case Commit(result) => EffectsKeep(s, c, Done(result));
    case Rollback(result) => EndKeeps(s, c, result);
    case Publish(o) => EndKeeps(s, c, Returned(o));
  }

  /** A read of the product ends the call with a refusal or leads on to the write. */
  lemma ReadChecks(s: State, c: ClientId)
    requires Live(s, c) && OrdersIndexed(s.db) && (s.clients[c].pc.Read? || s.clients[c].pc.ReadProduct?) && ClientAt(s, c)
    ensures var s' := Advance(s, c);
            match s'.clients[c].pc
            case Done(result) =>
              s' == Settle(s, c, NO_WRITES, Done(result)) && result.Failed? && result != Failed(RetriesExhausted)
            case _ => s' == Goto(s, c, s'.clients[c]) && GoesOn(s, c, s'.clients[c])
  {}

  lemma ReadKeeps(s: State, c: ClientId)
    requires Inv(s) && Enabled(s, c) && (s.clients[c].pc.Read? || s.clients[c].pc.ReadProduct?)
    ensures Inv(Advance(s, c))
  {
    var s' := Advance(s, c);
    assert ClientAt(s, c);
    ReadChecks(s, c);
    if s'.clients[c].pc.Done? {
      EndKeeps(s, c, s'.clients[c].pc.result);
    } else {
      GotoKeeps(s, c, s'.clients[c]);
    }
  }

  lemma CheckReferenceKeeps(s: State, c: ClientId)
    requires Inv(s) && Enabled(s, c) && s.clients[c].pc.CheckReference?
    ensures Inv(Advance(s, c))
  {
    assert ClientAt(s, c);
    EffectsKeep(s, c, Advance(s, c).clients[c].pc);
  }

  /** A failed optimistic attempt has met a reservation committed after its read. */
  lemma UpdateChecks(s: State, c: ClientId)
    requires Live(s, c) && OrdersIndexed(s.db) && s.clients[c].pc.Update? && ClientAt(s, c)
    requires !Matches(s.db, ProductOf(s.clients[c].call), QuantityOf(s.clients[c].call), Some(s.clients[c].pc.seen.version))
    ensures var cl, s' := s.clients[c], Advance(s, c);
            if s'.clients[c].pc.Read? then s' == Goto(s, c, s'.clients[c]) && GoesOn(s, c, s'.clients[c])
            else s' == Settle(s, c, NO_WRITES, Done(Failed(RetriesExhausted)))
                 && cl.call.OptimisticReserve? && CountSince(s.history, cl.mark, ProductOf(cl.call)) >= cl.call.maxRetries + 1
  {}

  lemma UpdateMatches(s: State, c: ClientId)
    requires Inv(s) && Enabled(s, c) && s.clients[c].pc.Update?
    requires Matches(s.db, ProductOf(s.clients[c].call), QuantityOf(s.clients[c].call), Some(s.clients[c].pc.seen.version))
    ensures Inv(Advance(s, c))
  {
    assert ClientAt(s, c);
    EffectsKeep(s, c, Advance(s, c).clients[c].pc);
  }

  lemma UpdateKeeps(s: State, c: ClientId)
    requires Inv(s) && Enabled(s, c) && s.clients[c].pc.Update?
    ensures Inv(Advance(s, c))
  {
    var cl, s' := s.clients[c], Advance(s, c);
    assert ClientAt(s, c);
    if Matches(s.db, ProductOf(cl.call), QuantityOf(cl.call), Some(cl.pc.seen.version)) {
      UpdateMatches(s, c);
      return;
    }
    UpdateChecks(s, c);
    if s'.clients[c].pc.Read? {
      GotoKeeps(s, c, s'.clients[c]);
    } else {
      EndKeeps(s, c, Failed(RetriesExhausted));
    }
  }

  lemma AdvanceKeeps(s: State, c: ClientId)
    requires Inv(s) && Enabled(s, c)
    ensures Inv(Advance(s, c))
  {
    match s.clients[c].pc
    case Start => StartKeeps(s, c);
    case Lookup => LookupKeeps(s, c);
    case AwaitLock => LockKeeps(s, c);
    case Recheck(_) => RecheckKeeps(s, c);
    case Reserve(_) => ReserveKeeps(s, c);
    case Insert => InsertKeeps(s, c);
    case ReadBack => ReadBackKeeps(s, c);
    case InsertProcessing => InsertProcessingKeeps(s, c);
    case Commit(_) => FinishKeeps(s, c);
    case Rollback(_) => FinishKeeps(s, c);
    case Publish(_) => FinishKeeps(s, c);
    case ReadProduct => ReadKeeps(s, c);
    case CheckReference => CheckReferenceKeeps(s, c);
    case Read(_) => ReadKeeps(s, c);
    case Update(_, _) => UpdateKeeps(s, c);
  }

  lemma StepKeeps(s: State, c: ClientId, s': State)
    requires Inv(s) && StepOf(s, c, s')
    ensures Inv(s')
  {
    if s' == Abort(s, c) {
      AbortKeeps(s, c);
    } else if s' == LostReply(s, c) {
      LostReplyKeeps(s, c);
    } else {
      AdvanceKeeps(s, c);
    }
  }

  lemma NextKeeps(s: State, s': State)
    requires Inv(s) && Next(s, s')
    ensures Inv(s')
  {
    var c :| StepOf(s, c, s');
    StepKeeps(s, c, s');
  }

  lemma InitClients(s: State)
    requires Init(s)
    ensures Clients(s) && Ownership(s)
  {}

  lemma InitOk(s: State)
    requires Init(s)
    ensures Inv(s)
  {
    InitClients(s);
  }

  lemma StartOk(states: seq<State>)
    requires Run(states)
    ensures Inv(states[0])
  {
    InitOk(states[0]);
  }

  lemma StepTaken(states: seq<State>, i: nat)
    requires Run(states) && i + 1 < |states|
    ensures Next(states[i], states[i + 1])
  {
    assert StepAt(states, i);
  }

  /** What holds at `i` and is kept by every step from there holds from there on. */
  lemma {:induction false} Along(p: State -> bool, states: seq<State>, i: nat, j: nat)
    requires i <= j < |states| && p(states[i])
    requires forall k: nat :: i <= k && k + 1 < |states| && p(states[k]) ==> p(states[k + 1])
    ensures p(states[j])
  {
    if i < j {
      Along(p, states, i, j - 1);
      assert p(states[j - 1 + 1]);
    }
  }

  /** The invariant holds in every state of every run. */
  lemma RunKeeps(states: seq<State>, i: nat)
    requires Run(states) && i < |states|
    ensures Inv(states[i])
  {
    StartOk(states);
    var inv := s => Inv(s);
    forall j: nat | j + 1 < |states| && inv(states[j]) ensures inv(states[j + 1]) {
      StepTaken(states, j);
      NextKeeps(states[j], states[j + 1]);
    }
    Along(inv, states, 0, i);
  }

  lemma RunIndexed(states: seq<State>, i: nat)
    requires Run(states) && i < |states|
    ensures OrdersIndexed(states[i].db)
  {
    RunKeeps(states, i);
  }
}
