/** What a client's answer says about the reservations and orders that its call has committed. */
module OrderAnswers {
  import opened Wrappers
  import opened JsText
  import opened OrderMachine
  import opened OrderInvariant
  import opened OrderSteps
  import opened OrderTheorems

  // ----- Answers and the commit log

  ghost predicate Owns(h: seq<Entry>, c: ClientId) { exists k: nat :: k < |h| && h[k].client == c }

  /** Made one after the other, the reservations of `h` leave `row` for the product. */
  ghost predicate Leaves(products: map<Text, Product>, h: seq<Entry>, product: Text, row: Product)
  {
    Replay(products, h).Some? && product in Replay(products, h).value && Replay(products, h).value[product] == row
  }

  /** A reservation of `c` is in the log, and `row` is what it left. */
  ghost predicate Made(products: map<Text, Product>, h: seq<Entry>, c: ClientId, row: Product)
  {
    exists k: nat :: MadeAt(products, h, c, row, k)
  }

  ghost predicate MadeAt(products: map<Text, Product>, h: seq<Entry>, c: ClientId, row: Product, k: nat)
  {
    k < |h| && h[k].client == c && Leaves(products, h[..k + 1], h[k].product, row)
  }

  ghost predicate Told(s: State, c: ClientId)
  {
    c in s.clients ==>
      var cl := s.clients[c];
      match cl.pc
      case Commit(result) =>
        if cl.call.LockedReserve? then result.Reserved? && cl.writes.product == Some(result.product) else !result.Reserved?
      case Rollback(result) => !result.Reserved?
      case Publish(o) => IsOrder(cl.call) && o == RowOf(cl.call)
      case Done(result) => Truthful(s, c, result)
      case _ => true
  }

  ghost predicate Truthful(s: State, c: ClientId, result: Outcome)
    requires c in s.clients
  {
    var call := s.clients[c].call;
    match result
    case Reserved(row) => !IsOrder(call) && Made(s.initial.products, s.history, c, row)
    case Returned(o) => Owns(s.history, c) ==> call.AtomicOrder? && o == RowOf(call)
    case Failed(e) => Owns(s.history, c) ==> e == DatabaseFailure
  }

  ghost predicate AllTold(s: State) { forall c :: Told(s, c) }

  lemma MadeStays(products: map<Text, Product>, h: seq<Entry>, h': seq<Entry>, c: ClientId, row: Product)
    requires h <= h' && Made(products, h, c, row)
    ensures Made(products, h', c, row)
  {
    var k: nat :| MadeAt(products, h, c, row, k);
    assert h'[..k + 1] == h[..k + 1];
    assert MadeAt(products, h', c, row, k);
  }

  /** A client that has not finished owns nothing. */
  lemma LiveOwnsNothing(s: State, c: ClientId)
    requires Entries(s) && Live(s, c)
    ensures !Owns(s.history, c)
  {
    forall k | 0 <= k < |s.history| ensures s.history[k].client != c {
      assert EntryOk(s, s.history[k]);
    }
  }

  // ----- A step of the client itself

  /** A call that ends, or goes on to its publisher, without committing a reservation. */
  lemma EndsUnreserved(s: State, c: ClientId, w: Writes, pc: Pc)
    requires Entries(s) && Live(s, c) && w.product.None?
    requires if pc.Done? then !pc.result.Reserved?
             else pc.Publish? && IsOrder(s.clients[c].call) && pc.order == RowOf(s.clients[c].call)
    ensures Told(Settle(s, c, w, pc), c)
  {
    LiveOwnsNothing(s, c);
  }

  /** A committed reservation leaves the row that was written. */
  lemma EndsReserved(s: State, c: ClientId, w: Writes, result: Outcome)
    requires Settles(s, c, w, Done(result)) && Serial(s) && w.product.Some?
    requires match result
             case Reserved(row) => !IsOrder(s.clients[c].call) && w.product == Some(row)
             case Returned(o) => s.clients[c].call.AtomicOrder? && o == RowOf(s.clients[c].call)
             case Failed(e) => e == DatabaseFailure
    ensures Told(Settle(s, c, w, Done(result)), c)
  {
    var s' := Settle(s, c, w, Done(result));
    SettleKeepsSerial(s, c, w, Done(result));
    var k := |s.history|;
    assert s'.history[..k + 1] == s'.history && s'.history[k].client == c;
    if result.Reserved? {
      assert MadeAt(s'.initial.products, s'.history, c, result.product, k);
    }
  }

  lemma CommitTold(s: State, c: ClientId)
    requires Inv(s) && Enabled(s, c) && Told(s, c) && s.clients[c].pc.Commit?
    ensures Told(Advance(s, c), c)
  {
    var cl := s.clients[c];
    assert ClientAt(s, c);
    EffectsAllowed(s, c);
    if cl.writes.product.Some? {
      EndsReserved(s, c, cl.writes, cl.pc.result);
    } else {
      EndsUnreserved(s, c, cl.writes, Done(cl.pc.result));
    }
  }

  lemma UpdateCommits(s: State, c: ClientId)
    requires Live(s, c) && OrdersIndexed(s.db) && s.clients[c].pc.Update? && Effects(s, c).product.Some?
    ensures Advance(s, c) == Settle(s, c, Effects(s, c), Done(Reserved(Effects(s, c).product.value)))
  {}

  lemma UpdateHits(s: State, c: ClientId, s': State)
    requires Inv(s) && Enabled(s, c) && s.clients[c].pc.Update? && Effects(s, c).product.Some?
    requires s' == Settle(s, c, Effects(s, c), Done(Reserved(Effects(s, c).product.value)))
    ensures Told(s', c)
  {
    assert ClientAt(s, c);
    EffectsAllowed(s, c);
    EndsReserved(s, c, Effects(s, c), Reserved(Effects(s, c).product.value));
  }

  lemma UpdateMisses(s: State, c: ClientId)
    requires Entries(s) && Live(s, c) && OrdersIndexed(s.db) && s.clients[c].pc.Update? && Effects(s, c).product.None?
    ensures Told(Advance(s, c), c)
  {
    LiveOwnsNothing(s, c);
  }

  lemma CheckReferenceTold(s: State, c: ClientId)
    requires Inv(s) && Enabled(s, c) && s.clients[c].pc.CheckReference?
    ensures Told(Advance(s, c), c)
  {
    assert ClientAt(s, c);
    EndsUnreserved(s, c, Effects(s, c), Publish(RowOf(s.clients[c].call)));
  }

  lemma WritingTold(s: State, c: ClientId)
    requires Inv(s) && Enabled(s, c) && (s.clients[c].pc.Reserve? || s.clients[c].pc.InsertProcessing?)
    ensures Told(Advance(s, c), c)
  {
    assert ClientAt(s, c);
  }

  /** A statement that ends the call without a write, or leaves it before its COMMIT. */
  predicate Quiet(pc: Pc)
  {
    pc.Start? || pc.Lookup? || pc.AwaitLock? || pc.Recheck? || pc.Insert? || pc.ReadBack?
    || pc.Rollback? || pc.ReadProduct? || pc.Publish? || pc.Read?
  }

  /** What a quiet statement can lead to. */
  predicate LeadsOn(s: State, c: ClientId, s': State)
    requires c in s.clients && c in s'.clients
  {
    var pc := s'.clients[c].pc;
    && s'.history == s.history && s'.clients[c].call == s.clients[c].call
    && !pc.Publish?
    && (pc.Done? || pc.Rollback? || pc.Commit? ==> !pc.result.Reserved?)
    && (pc.Commit? ==> s.clients[c].call.AtomicOrder?)
  }

  lemma EarlyLeadsOn(s: State, c: ClientId)
    requires Live(s, c) && OrdersIndexed(s.db)
    requires s.clients[c].pc.Start? || s.clients[c].pc.Lookup? || s.clients[c].pc.AwaitLock? || s.clients[c].pc.ReadProduct?
    ensures LeadsOn(s, c, Advance(s, c))
  {}

  lemma AnswerLeadsOn(s: State, c: ClientId)
    requires Live(s, c) && OrdersIndexed(s.db)
    requires (s.clients[c].pc.Recheck? && s.clients[c].call.AtomicOrder?) || s.clients[c].pc.ReadBack? || s.clients[c].pc.Publish?
             || (s.clients[c].pc.Rollback? && !s.clients[c].pc.result.Reserved?)
    ensures LeadsOn(s, c, Advance(s, c))
  {}

  lemma WriteLeadsOn(s: State, c: ClientId)
    requires Live(s, c) && OrdersIndexed(s.db) && (s.clients[c].pc.Insert? || s.clients[c].pc.Read?)
    ensures LeadsOn(s, c, Advance(s, c))
  {}

  lemma QuietTold(s: State, c: ClientId)
    requires Inv(s) && Enabled(s, c) && Told(s, c) && Quiet(s.clients[c].pc)
    ensures Told(Advance(s, c), c)
  {
    var pc := s.clients[c].pc;
    assert ClientAt(s, c);
    if pc.Start? || pc.Lookup? || pc.AwaitLock? || pc.ReadProduct? {
      EarlyLeadsOn(s, c);
    } else if pc.Insert? || pc.Read? {
      WriteLeadsOn(s, c);
    } else {
      AnswerLeadsOn(s, c);
    }
    LiveOwnsNothing(s, c);
  }

  lemma AdvanceTold(s: State, c: ClientId)
    requires Inv(s) && Enabled(s, c) && Told(s, c)
    ensures Told(Advance(s, c), c)
  {
    var pc := s.clients[c].pc;
    if pc.Commit? {
      CommitTold(s, c);
    } else if pc.Update? {
      if Effects(s, c).product.Some? {
        UpdateCommits(s, c);
        UpdateHits(s, c, Advance(s, c));
      } else {
        UpdateMisses(s, c);
      }
    } else if pc.CheckReference? {
      CheckReferenceTold(s, c);
    } else if pc.Reserve? || pc.InsertProcessing? {
      WritingTold(s, c);
    } else {
      QuietTold(s, c);
    }
  }

  /** A call whose statement fails, or took effect without an answer, reports a database failure or its own cause. */
  lemma FailureTold(s: State, c: ClientId, w: Writes)
    requires Inv(s) && Told(s, c) && Live(s, c)
    requires w == NO_WRITES || (Enabled(s, c) && w == Effects(s, c))
    ensures Told(Settle(s, c, w, Done(FailureOf(s.clients[c].pc))), c)
  {
    var result := FailureOf(s.clients[c].pc);
    if w.product.Some? {
      EffectsAllowed(s, c);
      EndsReserved(s, c, w, result);
    } else {
      EndsUnreserved(s, c, w, Done(result));
    }
  }

  lemma OwnStepTold(s: State, c: ClientId, s': State)
    requires Inv(s) && Told(s, c) && StepOf(s, c, s')
    ensures Told(s', c)
  {
    if s' == Abort(s, c) {
      FailureTold(s, c, NO_WRITES);
    } else if s' == LostReply(s, c) {
      FailureTold(s, c, Effects(s, c));
    } else {
      AdvanceTold(s, c);
    }
  }

  // ----- A step of another client

  /** A step adds at most one entry, and that is its own. */
  lemma StepAppends(s: State, c: ClientId, s': State)
    requires StepOf(s, c, s')
    ensures s'.history == s.history
            || (|s'.history| == |s.history| + 1 && s.history <= s'.history && s'.history[|s.history|].client == c)
  {}

  lemma OtherStepTold(s: State, c: ClientId, s': State, d: ClientId)
    requires Told(s, d) && StepOf(s, c, s') && d != c
    ensures Told(s', d)
  {
    StepKeepsCalls(s, c, s');
    StepAppends(s, c, s');
    if d in s.clients && s.clients[d].pc.Done? {
      if s.clients[d].pc.result.Reserved? {
        MadeStays(s.initial.products, s.history, s'.history, d, s.clients[d].pc.result.product);
      }
      OwnedBefore(s.history, s'.history, c, d);
    }
  }

  lemma OwnedBefore(h: seq<Entry>, h': seq<Entry>, c: ClientId, d: ClientId)
    requires h' == h || (|h'| == |h| + 1 && h <= h' && h'[|h|].client == c)
    requires c != d
    ensures Owns(h', d) <==> Owns(h, d)
  {
    if Owns(h', d) {
      var k: nat :| k < |h'| && h'[k].client == d;
      assert h[k].client == d;
    }
    if Owns(h, d) {
      var k: nat :| k < |h| && h[k].client == d;
      assert h'[k].client == d;
    }
  }

  lemma NextTold(s: State, s': State)
    requires Inv(s) && AllTold(s) && Next(s, s')
    ensures AllTold(s')
  {
    var c :| StepOf(s, c, s');
    forall d ensures Told(s', d) {
      assert Told(s, d);
      if d == c { OwnStepTold(s, c, s'); } else { OtherStepTold(s, c, s', d); }
    }
  }

  lemma StepTold(states: seq<State>, i: nat)
    requires Run(states) && i + 1 < |states| && AllTold(states[i])
    ensures AllTold(states[i + 1])
  {
    RunKeeps(states, i);
    assert StepAt(states, i);
    NextTold(states[i], states[i + 1]);
  }

  lemma {:induction false} RunTold(states: seq<State>, i: nat)
    requires Run(states) && i < |states|
    ensures AllTold(states[i])
  {
    if i > 0 {
      RunTold(states, i - 1);
      StepTold(states, i - 1);
    }
  }

  // ----- Whole-run results

  /**
   A finished reservation call, of either kind and whatever the others did, answers a row if and only
   if exactly one reservation in the log is its own, and the row is what that reservation left when
   the log is made one after the other. The one exception is a database failure reported for a
   reservation that did take effect.
   */
  lemma ReservationsAnswered(states: seq<State>, i: nat, c: ClientId, row: Product)
    requires Run(states) && i < |states| && c in states[i].clients
    requires !IsOrder(states[i].clients[c].call) && states[i].clients[c].pc.Done?
    ensures var s := states[i]; var result := s.clients[c].pc.result;
            && (result == Reserved(row) ==> Made(s.initial.products, s.history, c, row))
            && (Made(s.initial.products, s.history, c, row) ==> result == Reserved(row) || result == Failed(DatabaseFailure))
            && Single(s.history, c)
  {
    RunKeeps(states, i);
    RunTold(states, i);
    var s := states[i];
    assert Told(s, c);
    if Made(s.initial.products, s.history, c, row) {
      MadeOwns(s.initial.products, s.history, c, row);
      if s.clients[c].pc.result.Reserved? {
        MadeOnce(s.initial.products, s.history, c, row, s.clients[c].pc.result.product);
      }
    }
  }

  /** What an answer says about the call's reservation, even when others move: only a database failure leaves it open. */
  ghost predicate Honest(s: State, c: ClientId, result: Outcome)
  {
    && (result.Reserved? ==> Made(s.initial.products, s.history, c, result.product))
    && (result.Failed? && result.error != DatabaseFailure ==> !Owns(s.history, c))
  }

  lemma RunHonest(states: seq<State>, i: nat, c: ClientId, result: Outcome)
    requires Run(states) && i < |states| && c in states[i].clients && states[i].clients[c].pc == Done(result)
    ensures Honest(states[i], c, result)
  {
    RunTold(states, i);
    assert Told(states[i], c);
  }

  /** At most one reservation in the log is the client's. */
  ghost predicate Single(h: seq<Entry>, c: ClientId)
  {
    forall j, k :: 0 <= j < |h| && 0 <= k < |h| && h[j].client == c && h[k].client == c ==> j == k
  }

  lemma MadeOnce(products: map<Text, Product>, h: seq<Entry>, c: ClientId, row: Product, row': Product)
    requires Single(h, c) && Made(products, h, c, row) && Made(products, h, c, row')
    ensures row == row'
  {
    var k: nat :| MadeAt(products, h, c, row, k);
    var k': nat :| MadeAt(products, h, c, row', k');
    assert k == k';
  }

  lemma MadeOwns(products: map<Text, Product>, h: seq<Entry>, c: ClientId, row: Product)
    requires Made(products, h, c, row)
    ensures Owns(h, c)
  {
    var k: nat :| MadeAt(products, h, c, row, k);
  }

  /** A call that fails with anything but a database failure has no reservation in the log. */
  lemma RefusedReservesNothing(states: seq<State>, i: nat, c: ClientId, k: nat)
    requires Run(states) && i < |states| && c in states[i].clients && k < |states[i].history|
    requires states[i].clients[c].pc.Done? && states[i].clients[c].pc.result.Failed?
    requires states[i].clients[c].pc.result.error != DatabaseFailure
    ensures states[i].history[k].client != c
  {
    RunTold(states, i);
    assert Told(states[i], c);
  }

  // ----- What a call commits, and what it then answers

  /** The writes of each kind of call, all or nothing. */
  predicate Whole(db: Database, call: Call, w: Writes)
  {
    && (!call.UnlockedOrder? ==>
          ProductOf(call) in db.products && db.products[ProductOf(call)].stock >= QuantityOf(call) > 0)
    && w == match call
            case AtomicOrder(_, _) =>
              Writes(Some(Debit(db.products[ProductOf(call)], QuantityOf(call))), Some(RowOf(call)), true)
            case UnlockedOrder(_, _) => Writes(None, Some(RowOf(call)), false)
            case _ => Writes(Some(Debit(db.products[ProductOf(call)], QuantityOf(call))), None, false)
  }

  function EntriesFor(c: ClientId, call: Call): seq<Entry>
  {
    match call
    case AtomicOrder(_, id) => [Entry(c, ProductOf(call), QuantityOf(call), Some(id))]
    case UnlockedOrder(_, _) => []
    case _ => [Entry(c, ProductOf(call), QuantityOf(call), None)]
  }

  /** After its writes are committed a call answers them, or a database failure; its publisher may still have to run. */
  predicate AnswersWrites(call: Call, w: Writes, pc: Pc)
  {
    || pc == Done(Failed(DatabaseFailure))
    || (IsOrder(call) && pc == Done(Returned(RowOf(call))))
    || (call.UnlockedOrder? && pc == Publish(RowOf(call)))
    || (!IsOrder(call) && w.product.Some? && pc == Done(Reserved(w.product.value)))
  }

  /** The step of `c` commits the whole of its call's writes, with their entry, and goes on to answer them. */
  predicate CommitsWhole(s: State, c: ClientId, s': State, w: Writes)
  {
    && c in s.clients && c in s'.clients
    && var call := s.clients[c].call;
    && Whole(s.db, call, w) && s'.db == Apply(s.db, ProductOf(call), w)
    && s'.history == s.history + EntriesFor(c, call)
    && AnswersWrites(call, w, s'.clients[c].pc)
  }

  lemma SettleCommits(s: State, c: ClientId, w: Writes, pc: Pc)
    requires c in s.clients && Whole(s.db, s.clients[c].call, w) && AnswersWrites(s.clients[c].call, w, pc)
    ensures CommitsWhole(s, c, Settle(s, c, w, pc), w)
  {}

  /** A step that changes the tables or the log commits the whole of the mover's writes. */
  lemma StepCommits(s: State, c: ClientId, s': State)
    requires Inv(s) && Told(s, c) && StepOf(s, c, s') && (s'.db != s.db || s'.history != s.history)
    ensures c in s.clients && CommitsWhole(s, c, s', Effects(s, c))
  {
    StepCommitting(s, c, s');
    EffectsWhole(s, c);
    if s' == LostReply(s, c) {
      SettleCommits(s, c, Effects(s, c), Done(FailureOf(s.clients[c].pc)));
    } else {
      AdvanceCommits(s, c);
    }
  }

  lemma StepCommitting(s: State, c: ClientId, s': State)
    requires StepOf(s, c, s') && (s'.db != s.db || s'.history != s.history)
    ensures Enabled(s, c) && Commits(s.clients[c].pc) && Effects(s, c) != NO_WRITES
    ensures s' == Advance(s, c) || s' == LostReply(s, c)
  {}

  lemma EffectsWhole(s: State, c: ClientId)
    requires Inv(s) && Enabled(s, c) && Effects(s, c) != NO_WRITES
    ensures Whole(s.db, s.clients[c].call, Effects(s, c))
  {
    assert ClientAt(s, c);
    EffectsAllowed(s, c);
  }

  lemma AdvanceCommits(s: State, c: ClientId)
    requires Inv(s) && Told(s, c) && Enabled(s, c) && Effects(s, c) != NO_WRITES
    ensures CommitsWhole(s, c, Advance(s, c), Effects(s, c))
  {
    assert ClientAt(s, c);
    var pc := Advance(s, c).clients[c].pc;
    assert Advance(s, c) == Settle(s, c, Effects(s, c), pc);
    EffectsWhole(s, c);
    SettleCommits(s, c, Effects(s, c), pc);
  }

  // ----- The answer at the end of the call

  /** Client `c` moved from state `i` to the next. */
  predicate Moved(states: seq<State>, i: nat, c: ClientId)
  {
    i + 1 < |states| && c in states[i].clients && c in states[i + 1].clients && states[i + 1].clients[c] != states[i].clients[c]
  }

  lemma MoverCommits(states: seq<State>, i: nat, c: ClientId)
    requires Run(states) && Moved(states, i, c)
    requires states[i + 1].db != states[i].db || states[i + 1].history != states[i].history
    ensures CommitsWhole(states[i], c, states[i + 1], Effects(states[i], c))
  {
    RunKeeps(states, i);
    RunTold(states, i);
    assert StepAt(states, i);
    TheMover(states[i], states[i + 1], c);
    assert Told(states[i], c);
    StepCommits(states[i], c, states[i + 1]);
  }

  /** Only the client that moves changes. */
  lemma TheMover(s: State, s': State, c: ClientId)
    requires Next(s, s') && c in s.clients && c in s'.clients && s'.clients[c] != s.clients[c]
    ensures StepOf(s, c, s')
  {
    var d :| StepOf(s, d, s');
    StepKeepsCalls(s, d, s');
  }

  /** What is answered stays answered, and the publisher's turn changes no more than a database failure. */
  lemma AnswerStays(s: State, c: ClientId, s': State, d: ClientId, w: Writes)
    requires StepOf(s, c, s') && d in s.clients && AnswersWrites(s.clients[d].call, w, s.clients[d].pc)
    ensures d in s'.clients && s'.clients[d].call == s.clients[d].call
    ensures AnswersWrites(s'.clients[d].call, w, s'.clients[d].pc)
  {
    StepKeepsCalls(s, c, s');
  }

  lemma AnswerStaysAt(states: seq<State>, i: nat, d: ClientId, w: Writes)
    requires Run(states) && i + 1 < |states| && d in states[i].clients
    requires AnswersWrites(states[i].clients[d].call, w, states[i].clients[d].pc)
    ensures d in states[i + 1].clients && states[i + 1].clients[d].call == states[i].clients[d].call
    ensures AnswersWrites(states[i + 1].clients[d].call, w, states[i + 1].clients[d].pc)
  {
    assert StepAt(states, i);
    var c :| StepOf(states[i], c, states[i + 1]);
    AnswerStays(states[i], c, states[i + 1], d, w);
  }

  lemma AnswerHolds(states: seq<State>, i: nat, j: nat, d: ClientId, w: Writes)
    requires Run(states) && i <= j < |states| && d in states[i].clients
    requires AnswersWrites(states[i].clients[d].call, w, states[i].clients[d].pc)
    ensures d in states[j].clients && states[j].clients[d].call == states[i].clients[d].call
    ensures AnswersWrites(states[j].clients[d].call, w, states[j].clients[d].pc)
  {
    var call := states[i].clients[d].call;
    var answered := (s: State) => d in s.clients && s.clients[d].call == call && AnswersWrites(call, w, s.clients[d].pc);
    forall k: nat | i <= k && k + 1 < |states| && answered(states[k]) ensures answered(states[k + 1]) {
      AnswerStaysAt(states, k, d, w);
    }
    Along(answered, states, i, j);
  }

  /**
   All or nothing, and honestly answered: a statement that changes the tables commits the whole of its
   own call's writes, with its entry in the log, and from then on the call answers the committed order
   or row, or a database failure.
   */
  lemma CommitsAnswered(states: seq<State>, i: nat, j: nat, c: ClientId)
    requires Run(states) && Moved(states, i, c) && i < j < |states|
    requires states[i + 1].db != states[i].db || states[i + 1].history != states[i].history
    ensures CommitsWhole(states[i], c, states[i + 1], Effects(states[i], c))
    ensures c in states[j].clients && AnswersWrites(states[i].clients[c].call, Effects(states[i], c), states[j].clients[c].pc)
  {
    MoverCommits(states, i, c);
    RunKeepsCalls(states, i, i + 1);
    AnswerHolds(states, i + 1, j, c, Effects(states[i], c));
  }

  /** A call that fails with anything but a database failure has changed no table and no log, in any of its steps. */
  lemma RefusedChangesNothing(states: seq<State>, i: nat, j: nat, c: ClientId)
    requires Run(states) && Moved(states, i, c) && i < j < |states| && c in states[j].clients
    requires states[j].clients[c].pc.Done? && states[j].clients[c].pc.result.Failed?
    requires states[j].clients[c].pc.result.error != DatabaseFailure
    ensures states[i + 1].db == states[i].db && states[i + 1].history == states[i].history
  {
    if states[i + 1].db != states[i].db || states[i + 1].history != states[i].history {
      CommitsAnswered(states, i, j, c);
    }
  }

  /** An atomic call that wrote an order owns exactly one reservation from then on, and it is for that order. */
  lemma OwnOrderReserved(states: seq<State>, i: nat, j: nat, c: ClientId)
    requires Run(states) && Moved(states, i, c) && i < j < |states|
    requires states[i].clients[c].call.AtomicOrder? && states[i + 1].db.orders != states[i].db.orders
    ensures var call, k := states[i].clients[c].call, |states[i].history|;
            && k < |states[j].history| && Single(states[j].history, c)
            && states[j].history[k] == Entry(c, ProductOf(call), QuantityOf(call), Some(call.id))
  {
    MoverCommits(states, i, c);
    RunKeepsCalls(states, i + 1, j);
    RunSingle(states, j, c);
    EntryKept(states[i].history, states[i + 1].history, states[j].history, c, states[i].clients[c].call);
  }

  lemma EntryKept(h: seq<Entry>, next: seq<Entry>, last: seq<Entry>, c: ClientId, call: Call)
    requires call.AtomicOrder? && next == h + EntriesFor(c, call) && next <= last
    ensures |h| < |last| && last[|h|] == Entry(c, ProductOf(call), QuantityOf(call), Some(call.id))
  {
    assert next[|h|] == Entry(c, ProductOf(call), QuantityOf(call), Some(call.id));
  }

  lemma RunSingle(states: seq<State>, i: nat, c: ClientId)
    requires Run(states) && i < |states|
    ensures Single(states[i].history, c)
  {
    RunKeeps(states, i);
  }

  // ----- Orders and their entries

  ghost predicate EntryFor(h: seq<Entry>, id: Text) { exists k: nat :: k < |h| && h[k].order == Some(id) }

  /** Every processing record made in the run came with a reservation for its order. */
  ghost predicate Reserving(s: State)
  {
    forall id :: id in s.db.processing && id !in s.initial.processing ==> EntryFor(s.history, id)
  }

  lemma EntryStays(h: seq<Entry>, h': seq<Entry>, id: Text)
    requires h <= h' && EntryFor(h, id)
    ensures EntryFor(h', id)
  {
    var k: nat :| k < |h| && h[k].order == Some(id);
    assert h'[k].order == Some(id);
  }

  lemma StepReserving(s: State, c: ClientId, s': State)
    requires Inv(s) && Told(s, c) && Reserving(s) && StepOf(s, c, s')
    ensures Reserving(s')
  {
    StepKeepsCalls(s, c, s');
    if s'.db != s.db || s'.history != s.history {
      StepCommits(s, c, s');
    }
    forall id | id in s'.db.processing && id !in s'.initial.processing ensures EntryFor(s'.history, id) {
      if id in s.db.processing {
        EntryStays(s.history, s'.history, id);
      } else {
        assert s'.history[|s.history|].order == Some(id);
      }
    }
  }

  lemma {:induction false} RunReserving(states: seq<State>, i: nat)
    requires Run(states) && i < |states|
    ensures Reserving(states[i])
  {
    if i > 0 {
      RunReserving(states, i - 1);
      ReservingAt(states, i - 1);
    }
  }

  lemma ReservingAt(states: seq<State>, i: nat)
    requires Run(states) && i + 1 < |states| && Reserving(states[i])
    ensures Reserving(states[i + 1])
  {
    RunKeeps(states, i);
    RunTold(states, i);
    assert StepAt(states, i);
    var c :| StepOf(states[i], c, states[i + 1]);
    assert Told(states[i], c);
    StepReserving(states[i], c, states[i + 1]);
  }

  /** The only reservation for an order is at `k`. */
  ghost predicate OnlyEntryFor(h: seq<Entry>, id: Text, k: nat)
  {
    k < |h| && h[k].order == Some(id) && forall j :: 0 <= j < |h| && h[j].order == Some(id) ==> j == k
  }

  /**
   An order committed in the run has exactly one reservation in the log if an atomic call wrote it,
   that is, if it has a processing record, and none otherwise. The reservation is for its product and quantity.
   */
  lemma OrdersReserved(states: seq<State>, i: nat, id: Text)
    requires Run(states) && i < |states|
    requires id in states[i].db.orders && id !in states[i].initial.orders
    ensures var s := states[i];
            && (id in s.db.processing <==> exists k: nat :: OnlyEntryFor(s.history, id, k))
            && (id !in s.db.processing ==> !EntryFor(s.history, id))
            && (forall k: nat :: OnlyEntryFor(s.history, id, k) ==>
                  s.history[k].product == s.db.orders[id].productId && s.history[k].quantity == s.db.orders[id].quantity)
  {
    RunKeeps(states, i);
    RunReserving(states, i);
    EntriesMatch(states[i], id);
  }

  lemma EntriesMatch(s: State, id: Text)
    requires Inv(s) && Reserving(s) && id in s.db.orders && id !in s.initial.orders
    ensures id in s.db.processing <==> exists k: nat :: OnlyEntryFor(s.history, id, k)
    ensures id !in s.db.processing ==> !EntryFor(s.history, id)
    ensures forall k: nat :: OnlyEntryFor(s.history, id, k) ==>
              s.history[k].product == s.db.orders[id].productId && s.history[k].quantity == s.db.orders[id].quantity
  {
    forall k: nat | k < |s.history| && s.history[k].order == Some(id)
      ensures OnlyEntryFor(s.history, id, k) && id in s.db.processing
      ensures s.history[k].product == s.db.orders[id].productId && s.history[k].quantity == s.db.orders[id].quantity
    {
      assert EntryOk(s, s.history[k]);
    }
    if id in s.db.processing {
      assert id !in s.initial.processing;
      var k: nat :| k < |s.history| && s.history[k].order == Some(id);
      assert OnlyEntryFor(s.history, id, k);
    }
  }
}
