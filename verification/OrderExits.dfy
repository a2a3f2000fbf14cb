/** Which exits of the services can be taken, and what an exhausted optimistic call has met. */
module OrderExits {
  import opened Wrappers
  import opened JsText
  import opened Fingerprint
  import opened OrderMachine
  import opened OrderInvariant
  import opened OrderSteps
  import opened OrderTheorems

  // ----- Exits of the atomic order service

  /** The locked row still has the stock that was checked: reserveLocked cannot come back empty. */
  lemma LockedStockSuffices(states: seq<State>, i: nat, c: ClientId)
    requires Run(states) && i < |states|
    requires c in states[i].clients && states[i].clients[c].pc.Reserve?
    ensures OrdersIndexed(states[i].db)
    ensures var s := states[i];
            && Matches(s.db, ProductOf(s.clients[c].call), QuantityOf(s.clients[c].call), None)
            && BlockedBy(s, c).None?
            && !Advance(s, c).clients[c].pc.Rollback?
  {
    var s := states[i];
    RunKeeps(states, i);
    assert ClientAt(s, c);
    assert Accounts(s.clients[c], ProductRow(ProductOf(s.clients[c].call)));
  }

  /** After a conflicting insert the winning row is always found. */
  lemma ReadBackFinds(states: seq<State>, i: nat, c: ClientId)
    requires Run(states) && i < |states|
    requires c in states[i].clients && states[i].clients[c].pc.ReadBack?
    ensures IsOrder(states[i].clients[c].call)
    ensures OrdersIndexed(states[i].db) && FindByKey(states[i].db, states[i].clients[c].call.input.key).Some?
  {
    RunKeeps(states, i);
    assert ClientAt(states[i], c);
  }

  /** The new order has no processing record yet, and its product exists: neither insert can fail on a constraint. */
  lemma ConstraintsHold(states: seq<State>, i: nat, c: ClientId)
    requires Run(states) && i < |states| && c in states[i].clients
    ensures states[i].clients[c].pc.InsertProcessing? && IsOrder(states[i].clients[c].call) ==>
              states[i].clients[c].call.id !in states[i].db.processing
    ensures states[i].clients[c].pc.CheckReference? ==> ProductOf(states[i].clients[c].call) in states[i].db.products
  {
    RunKeeps(states, i);
    assert ClientAt(states[i], c);
  }

  predicate PastRecheck(pc: Pc) { pc.Reserve? || pc.Insert? || pc.ReadBack? || pc.InsertProcessing? }

  ghost predicate NoUnlocked(s: State) { forall c :: c in s.clients ==> !s.clients[c].call.UnlockedOrder? }

  /** No order with the call's key has been committed for the product that the call holds locked. */
  ghost predicate NoTwin(s: State, c: ClientId, id: Text)
  {
    c in s.clients && s.clients[c].call.AtomicOrder? && PastRecheck(s.clients[c].pc) && id in s.db.orders ==>
      !(s.db.orders[id].key == s.clients[c].call.input.key && s.db.orders[id].productId == ProductOf(s.clients[c].call))
  }

  ghost predicate TwinFree(s: State) { forall c, id :: NoTwin(s, c, id) }

  lemma EntersPastRecheck(s: State, c: ClientId)
    requires Live(s, c) && OrdersIndexed(s.db) && s.clients[c].call.AtomicOrder?
    requires PastRecheck(Advance(s, c).clients[c].pc)
    ensures PastRecheck(s.clients[c].pc) || (s.clients[c].pc.Recheck? && !KeyTaken(s.db, s.clients[c].call.input.key))
            || s.clients[c].pc.ReadProduct?
  {}

  /** Two clients past their recheck or committing a reservation hold different products. */
  lemma LocksDiffer(s: State, c: ClientId, d: ClientId)
    requires HoldingsHeld(s) && c in s.clients && d in s.clients && c != d
    requires s.clients[c].locked && s.clients[d].locked
    ensures ProductOf(s.clients[c].call) != ProductOf(s.clients[d].call)
  {
    var r, r' := ProductRow(ProductOf(s.clients[c].call)), ProductRow(ProductOf(s.clients[d].call));
    assert Accounts(s.clients[c], r) && Accounts(s.clients[d], r');
    assert s.held[r] == c && s.held[r'] == d;
  }

  lemma NewOrderEffects(s: State, d: ClientId, s': State, id: Text)
    requires Inv(s) && StepOf(s, d, s') && id in s'.db.orders && id !in s.db.orders
    ensures Effects(s, d).order.Some? && IsOrder(s.clients[d].call) && s'.db.orders[id] == RowOf(s.clients[d].call)
  {
    StepKeepsOrders(s, d, s');
  }

  /** An order committed now is for another product than the one `c` holds. */
  lemma NewOrderNoTwin(s: State, d: ClientId, s': State, c: ClientId, id: Text)
    requires HoldingsHeld(s) && Clients(s) && Confined(s, d, s')
    requires s.clients[d].locked && s'.clients[d].pc.Done? && IsOrder(s.clients[d].call)
    requires id in s'.db.orders && s'.db.orders[id].productId == ProductOf(s.clients[d].call)
    ensures NoTwin(s', c, id)
  {
    if c != d && c in s.clients && s.clients[c].call.AtomicOrder? && PastRecheck(s.clients[c].pc) {
      PastRecheckLocked(s, c);
      LocksDiffer(s, c, d);
    }
  }

  lemma PastRecheckLocked(s: State, c: ClientId)
    requires Clients(s) && c in s.clients && s.clients[c].call.AtomicOrder? && PastRecheck(s.clients[c].pc)
    ensures s.clients[c].locked
  {
    assert ClientAt(s, c);
  }

  lemma CommitterLocked(s: State, d: ClientId)
    requires Inv(s) && Live(s, d) && NoUnlocked(s) && Effects(s, d).order.Some?
    ensures s.clients[d].pc.Commit? && s.clients[d].locked
  {
    assert ClientAt(s, d);
  }

  lemma EffectsEnd(s: State, c: ClientId, s': State)
    requires StepOf(s, c, s') && s.clients[c].pc.Commit?
    ensures s'.clients[c].pc.Done?
  {}

  lemma OwnStepNoTwin(s: State, c: ClientId, s': State, id: Text)
    requires Inv(s) && StepOf(s, c, s') && NoTwin(s, c, id) && id in s.db.orders
    ensures NoTwin(s', c, id)
  {
    StepKeepsOrders(s, c, s');
    StepKeepsCalls(s, c, s');
    if s.clients[c].call.AtomicOrder? && PastRecheck(s'.clients[c].pc) {
      OwnStepPast(s, c, s');
    }
  }

  lemma OwnStepPast(s: State, c: ClientId, s': State)
    requires Clients(s) && StepOf(s, c, s') && s.clients[c].call.AtomicOrder? && PastRecheck(s'.clients[c].pc)
    ensures PastRecheck(s.clients[c].pc) || !KeyTaken(s.db, s.clients[c].call.input.key)
  {
    assert ClientAt(s, c);
    EntersPastRecheck(s, c);
  }

  lemma StepKeepsNoTwin(s: State, d: ClientId, s': State, c: ClientId, id: Text)
    requires Inv(s) && StepOf(s, d, s') && NoUnlocked(s) && NoTwin(s, c, id)
    ensures NoTwin(s', c, id)
  {
    StepKeepsOrders(s, d, s');
    if id in s'.db.orders && id !in s.db.orders {
      NewOrderEffects(s, d, s', id);
      CommitterLocked(s, d);
      EffectsEnd(s, d, s');
      StepKeepsCalls(s, d, s');
      NewOrderNoTwin(s, d, s', c, id);
    } else if c == d && id in s.db.orders {
      OwnStepNoTwin(s, c, s', id);
    } else {
      StepKeepsCalls(s, d, s');
    }
  }

  lemma NextKeepsTwinFree(s: State, s': State)
    requires Inv(s) && Next(s, s') && NoUnlocked(s) && TwinFree(s)
    ensures TwinFree(s')
  {
    var d :| StepOf(s, d, s');
    forall c, id ensures NoTwin(s', c, id) {
      StepKeepsNoTwin(s, d, s', c, id);
    }
  }

  lemma TwinFreeStep(states: seq<State>, i: nat)
    requires Run(states) && i + 1 < |states| && NoUnlocked(states[0]) && TwinFree(states[i])
    ensures TwinFree(states[i + 1])
  {
    RunKeeps(states, i);
    RunKeepsCalls(states, 0, i);
    assert StepAt(states, i);
    NextKeepsTwinFree(states[i], states[i + 1]);
  }

  lemma {:induction false} RunTwinFree(states: seq<State>, i: nat)
    requires Run(states) && i < |states| && NoUnlocked(states[0])
    ensures TwinFree(states[i])
  {
    if i > 0 {
      RunTwinFree(states, i - 1);
      TwinFreeStep(states, i - 1);
    }
  }

  lemma SameFingerprintSameProduct(db: Database, call: Call, id: Text)
    requires DatabaseOk(db) && IsOrder(call) && id in db.orders
    requires StoredFingerprint(db.orders[id]) == InputFingerprint(call.input)
    ensures db.orders[id].productId == ProductOf(call)
  {
    var o, input := db.orders[id], call.input;
    FingerprintsAgree(o.customerId, o.productId, o.quantity, o.amount,
                      input.customerId, input.productId, input.quantity, input.amount);
  }

  lemma ReadBackRefuses(s: State, c: ClientId)
    requires Inv(s) && TwinFree(s) && c in s.clients && s.clients[c].pc.ReadBack? && s.clients[c].call.AtomicOrder?
    ensures Advance(s, c).clients[c].pc == Rollback(Failed(KeyReused))
  {
    var call := s.clients[c].call;
    assert ClientAt(s, c);
    var o := FindByKey(s.db, call.input.key).value;
    assert NoTwin(s, c, o.id);
    if StoredFingerprint(o) == InputFingerprint(call.input) {
      SameFingerprintSameProduct(s.db, call, o.id);
    }
  }

  /**
   Without unlocked writers, a conflicting insert always finds a different request: the exit that
   replays a matching order after reserving stock is never taken, because equal fingerprints mean
   the same product lock.
   */
  lemma ReplayExitUnreachable(states: seq<State>, i: nat, c: ClientId)
    requires Run(states) && i < |states| && NoUnlocked(states[0])
    requires c in states[i].clients && states[i].clients[c].pc.ReadBack?
    ensures OrdersIndexed(states[i].db)
    ensures Advance(states[i], c).clients[c].pc == Rollback(Failed(KeyReused))
  {
    RunKeeps(states, i);
    RunKeepsCalls(states, 0, i);
    RunTwinFree(states, i);
    ReadBackFinds(states, i, c);
    assert states[i].clients[c].call == states[0].clients[c].call;
    ReadBackRefuses(states[i], c);
  }

  // ----- Exhausted optimistic calls

  lemma {:induction false} CountSuffix(h: seq<Entry>, a: nat, b: nat, product: Text)
    requires a <= b <= |h|
    ensures Count(h[a..], product) >= Count(h[b..], product)
  {
    if b < |h| {
      var last := |h| - 1;
      CountSuffix(h[..last], a, b, product);
      assert h[a..][..last - a] == h[..last][a..] && h[b..][..last - b] == h[..last][b..];
    } else {
      assert h[b..] == [];
    }
  }

  /** The call of `cl` begins, if at all, once `n` reservations have been committed. */
  predicate BeginsAfter(cl: Client, n: nat)
  {
    cl.pc.Start? || cl.mark >= n || (cl.pc.Done? && cl.pc.result != Failed(RetriesExhausted))
  }

  lemma AdvanceMark(s: State, c: ClientId)
    requires Live(s, c) && OrdersIndexed(s.db)
    ensures var cl, cl' := s.clients[c], Advance(s, c).clients[c];
            && (!cl.pc.Start? ==> cl'.mark == cl.mark)
            && (cl.pc.Start? ==> cl'.mark == |s.history| || cl'.pc == Done(Failed(Validation)))
  {
    if s.clients[c].pc.Insert? {
      assert Advance(s, c) == if IsOrder(s.clients[c].call) then InsertRow(s, c) else s;
    }
  }

  lemma StepKeepsBegin(s: State, d: ClientId, s': State, c: ClientId, n: nat)
    requires StepOf(s, d, s') && c in s.clients && n <= |s.history|
    requires BeginsAfter(s.clients[c], n)
    ensures c in s'.clients && BeginsAfter(s'.clients[c], n)
  {
    StepKeepsCalls(s, d, s');
    if c == d && s' == Advance(s, c) {
      AdvanceMark(s, c);
    }
  }

  lemma NextKeepsBegin(s: State, s': State, c: ClientId, n: nat)
    requires Next(s, s') && c in s.clients && n <= |s.history| && BeginsAfter(s.clients[c], n)
    ensures c in s'.clients && BeginsAfter(s'.clients[c], n)
  {
    var d :| StepOf(s, d, s');
    StepKeepsBegin(s, d, s', c, n);
  }

  lemma BeginStep(states: seq<State>, i: nat, c: ClientId, n: nat)
    requires Run(states) && i + 1 < |states| && c in states[i].clients
    requires n <= |states[i].history| && BeginsAfter(states[i].clients[c], n)
    ensures c in states[i + 1].clients && BeginsAfter(states[i + 1].clients[c], n)
  {
    assert StepAt(states, i);
    NextKeepsBegin(states[i], states[i + 1], c, n);
  }

  lemma {:induction false} MarkAfterStart(states: seq<State>, i: nat, j: nat, c: ClientId)
    requires Run(states) && i <= j < |states|
    requires c in states[i].clients && states[i].clients[c].pc.Start?
    ensures c in states[j].clients && BeginsAfter(states[j].clients[c], |states[i].history|)
  {
    if i < j {
      MarkAfterStart(states, i, j - 1, c);
      HistoryGrows(states, i, j - 1);
      BeginStep(states, j - 1, c, |states[i].history|);
    }
  }

  lemma HistoryGrows(states: seq<State>, i: nat, j: nat)
    requires Run(states) && i <= j < |states|
    ensures |states[i].history| <= |states[j].history|
  {
    RunKeepsCalls(states, i, j);
  }

  /**
   An optimistic call that had not begun in state `i` and is exhausted in state `j` has met at
   least maxRetries + 1 reservations of its product committed in between, none of them its own.
   */
  lemma ExhaustionNeedsConflicts(states: seq<State>, i: nat, j: nat, c: ClientId)
    requires Run(states) && i <= j < |states|
    requires c in states[i].clients && states[i].clients[c].pc.Start?
    requires states[j].clients.Keys == states[i].clients.Keys
    requires states[j].clients[c].pc == Done(Failed(RetriesExhausted))
    ensures states[i].history <= states[j].history
    ensures var call, met := states[j].clients[c].call, states[j].history[|states[i].history|..];
            && call.OptimisticReserve?
            && Count(met, ProductOf(call)) >= call.maxRetries + 1
            && forall k :: 0 <= k < |met| ==> met[k].client != c
  {
    var s := states[j];
    RunKeeps(states, j);
    RunKeepsCalls(states, i, j);
    MarkAfterStart(states, i, j, c);
    assert ClientAt(s, c);
    CountSuffix(s.history, |states[i].history|, s.clients[c].mark, ProductOf(s.clients[c].call));
    forall k | 0 <= k < |s.history| ensures s.history[k].client != c {
      assert EntryOk(s, s.history[k]);
    }
  }

  lemma {:induction false} CountDistinct(h: seq<Entry>, product: Text, who: set<ClientId>)
    requires forall i :: 0 <= i < |h| && h[i].product == product ==> h[i].client in who
    requires forall i, j :: 0 <= i < j < |h| ==> h[i].client != h[j].client
    ensures Count(h, product) <= |who|
  {
    if h != [] {
      var rest, e := h[..|h| - 1], h[|h| - 1];
      if e.product == product {
        CountDistinct(rest, product, who - {e.client});
      } else {
        CountDistinct(rest, product, who);
      }
    }
  }

  function Rivals(s: State, c: ClientId): set<ClientId>
    requires c in s.clients
  {
    set d | d in s.clients && d != c && ProductOf(s.clients[d].call) == ProductOf(s.clients[c].call)
  }

  /** With no more rivals for the product than retries, a call never runs out of them. */
  lemma EnoughRetriesNeverExhaust(states: seq<State>, i: nat, c: ClientId)
    requires Run(states) && i < |states|
    requires c in states[i].clients && states[i].clients[c].call.OptimisticReserve?
    requires |Rivals(states[i], c)| <= states[i].clients[c].call.maxRetries
    ensures states[i].clients[c].pc != Done(Failed(RetriesExhausted))
  {
    var s := states[i];
    RunKeeps(states, i);
    assert ClientAt(s, c);
    if s.clients[c].pc == Done(Failed(RetriesExhausted)) {
      var met := s.history[s.clients[c].mark..];
      forall k | 0 <= k < |met| && met[k].product == ProductOf(s.clients[c].call)
        ensures met[k].client in Rivals(s, c)
      {
        assert EntryOk(s, s.history[s.clients[c].mark + k]);
      }
      CountDistinct(met, ProductOf(s.clients[c].call), Rivals(s, c));
    }
  }
}
