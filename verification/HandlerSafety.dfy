/**
 Which handlers can rely on PROCESSED. A handler is a list of statements, each of which it may go on
 after when it fails, and a decision to throw at the end; its runs are the runs of the deduplication
 machine in which a delivery issues just these statements.
 */
module HandlerSafety {
  import opened JsText
  import opened Deduplication

  /** A statement of the handler; `swallow` if the handler goes on when it fails. */
  datatype Statement = Statement(write: Write, swallow: bool)

  /** The handler's statements, and whether it then throws. */
  datatype Handler = Handler(statements: seq<Statement>, throws: bool, recognised: bool)

  /** The handler does not go on after a failure of its last statement, or never returns. */
  predicate Safe(handler: Handler)
  {
    handler.throws || handler.statements == [] || !handler.statements[|handler.statements| - 1].swallow
  }

  function WritesOf(statements: seq<Statement>): seq<Write>
  {
    seq(|statements|, i requires 0 <= i < |statements| => statements[i].write)
  }

  type Log = seq<(DeliveryId, Action)>

  ghost predicate PlayedAt(states: seq<State>, log: Log, i: nat)
  {
    && i < |log| && i + 1 < |states|
    && Can(states[i], log[i].0, log[i].1) && states[i + 1] == Step(states[i], log[i].0, log[i].1)
  }

  /** The actions of `log`, one after the other, make the run. */
  ghost predicate Played(states: seq<State>, log: Log)
  {
    && |states| == |log| + 1 && Init(states[0])
    && forall i: nat :: i < |log| ==> PlayedAt(states, log, i)
  }

  /** The handler statements that delivery `d` has issued. */
  function Handled(log: Log, d: DeliveryId): seq<Statement>
  {
    if log == [] then [] else
    var before, last := Handled(log[..|log| - 1], d), log[|log| - 1];
    if last.0 == d && last.1.HandlerWrites? then before + [Statement(last.1.write, last.1.swallow)] else before
  }

  /** What delivery `d` does next fits its handler. */
  predicate Fits(log: Log, d: DeliveryId, handler: Handler, i: nat)
    requires i < |log|
  {
    log[i].0 == d ==>
      match log[i].1
      case HandlerWrites(write, _, swallow) => Handled(log[..i], d) + [Statement(write, swallow)] <= handler.statements
      case HandlerReturns => !handler.throws && Handled(log[..i], d) == handler.statements
      case HandlerThrows(recognised) =>
        handler.throws && recognised == handler.recognised && Handled(log[..i], d) == handler.statements
      case Answer(_) => true
  }

  predicate Obeys(log: Log, d: DeliveryId, handler: Handler)
  {
    forall i :: 0 <= i < |log| ==> Fits(log, d, handler, i)
  }

  lemma PlayedRuns(states: seq<State>, log: Log)
    requires Played(states, log)
    ensures Run(states)
  {
    forall i: nat | i + 1 < |states| ensures StepAt(states, i) {
      assert PlayedAt(states, log, i);
    }
  }

  // ----- What a delivery's session holds while its handler runs

  ghost predicate Whole(committed: seq<Effects>, d: DeliveryId, handler: Handler)
  {
    forall k :: 0 <= k < |committed| && committed[k].delivery == d ==> committed[k].writes == WritesOf(handler.statements)
  }

  predicate Carries(x: Delivery, handled: seq<Statement>, handler: Handler)
  {
    match x.pc
    case Connect => handled == []
    case Begin => handled == []
    case Claim => handled == []
    case Handle =>
      && (x.session.Open? ==> x.session.writes == WritesOf(handled))
      && (x.session.Aborted? ==> handled != [] && handled[|handled| - 1].swallow)
    case Commit(result) =>
      result.Processed? ==>
        && (x.session.Open? ==> x.session.writes == WritesOf(handler.statements))
        && (Safe(handler) ==> !x.session.Aborted?)
    case Release(result, _) => result.Processed? && Safe(handler) ==> !x.swallowed
    case Done(result) => result.Processed? && Safe(handler) ==> !x.swallowed
    case Rollback(_) => true
  }

  ghost predicate Kept(s: State, d: DeliveryId, handled: seq<Statement>, handler: Handler)
  {
    d in s.deliveries ==> Carries(s.deliveries[d], handled, handler) && Whole(s.committed, d, handler)
  }

  lemma WritesAppend(handled: seq<Statement>, q: Statement)
    ensures WritesOf(handled + [q]) == WritesOf(handled) + [q.write]
  {}

  lemma HandledAppend(log: Log, i: nat, d: DeliveryId)
    requires i < |log|
    ensures Handled(log[..i + 1], d)
         == Handled(log[..i], d)
            + if log[i].0 == d && log[i].1.HandlerWrites? then [Statement(log[i].1.write, log[i].1.swallow)] else []
  {
    assert log[..i + 1][..i] == log[..i];
  }

  lemma OthersKeep(s: State, e: DeliveryId, a: Action, d: DeliveryId, handled: seq<Statement>, handler: Handler)
    requires Can(s, e, a) && e != d && Kept(s, d, handled, handler)
    ensures Kept(Step(s, e, a), d, handled, handler)
  {
    StepPublishes(s, e, a);
  }

  lemma HandlingKeeps(s: State, d: DeliveryId, a: Action, handled: seq<Statement>, handler: Handler)
    requires Can(s, d, a) && DeliveryOk(s, d) && Kept(s, d, handled, handler) && s.deliveries[d].pc.Handle?
    requires a.HandlerReturns? ==> !handler.throws && handled == handler.statements
    ensures Kept(Step(s, d, a), d,
                 handled + if a.HandlerWrites? then [Statement(a.write, a.swallow)] else [], handler)
  {
    if a.HandlerWrites? {
      WritesAppend(handled, Statement(a.write, a.swallow));
    }
  }

  lemma CommitKeeps(s: State, d: DeliveryId, a: Action, handled: seq<Statement>, handler: Handler)
    requires Can(s, d, a) && DeliveryOk(s, d) && Kept(s, d, handled, handler) && s.deliveries[d].pc.Commit?
    ensures Kept(Step(s, d, a), d, handled, handler)
  {}

  lemma PlainKeeps(s: State, d: DeliveryId, a: Action, handled: seq<Statement>, handler: Handler)
    requires Can(s, d, a) && DeliveryOk(s, d) && Kept(s, d, handled, handler)
    requires !s.deliveries[d].pc.Handle? && !s.deliveries[d].pc.Commit?
    ensures Kept(Step(s, d, a), d, handled, handler)
  {}

  lemma StepKept(states: seq<State>, log: Log, d: DeliveryId, handler: Handler, i: nat)
    requires Played(states, log) && i < |log| && Fits(log, d, handler, i)
    requires Kept(states[i], d, Handled(log[..i], d), handler)
    ensures Kept(states[i + 1], d, Handled(log[..i + 1], d), handler)
  {
    PlayedRuns(states, log);
    RunKeeps(states, i);
    assert PlayedAt(states, log, i);
    HandledAppend(log, i, d);
    assert DeliveryOk(states[i], d);
    if log[i].0 != d {
      OthersKeep(states[i], log[i].0, log[i].1, d, Handled(log[..i], d), handler);
    } else if states[i].deliveries[d].pc.Handle? {
      HandlingKeeps(states[i], d, log[i].1, Handled(log[..i], d), handler);
    } else if states[i].deliveries[d].pc.Commit? {
      CommitKeeps(states[i], d, log[i].1, Handled(log[..i], d), handler);
    } else {
      PlainKeeps(states[i], d, log[i].1, Handled(log[..i], d), handler);
    }
  }

  lemma {:induction false} RunKept(states: seq<State>, log: Log, d: DeliveryId, handler: Handler, i: nat)
    requires Played(states, log) && Obeys(log, d, handler) && i <= |log|
    ensures Kept(states[i], d, Handled(log[..i], d), handler)
  {
    if i > 0 {
      RunKept(states, log, d, handler, i - 1);
      StepKept(states, log, d, handler, i - 1);
    }
  }

  // ----- Whole-run results

  /**
   All or nothing: whatever fails, and even when the outcome of the COMMIT is never learned, what is
   committed for a delivery is its handler's writes, all of them and in order.
   */
  lemma CommittedIsWhole(states: seq<State>, log: Log, d: DeliveryId, handler: Handler, i: nat, k: nat)
    requires Played(states, log) && Obeys(log, d, handler) && i <= |log| && d in states[i].deliveries
    requires k < |states[i].committed| && states[i].committed[k].delivery == d
    ensures states[i].committed[k].writes == WritesOf(handler.statements)
  {
    RunKept(states, log, d, handler, i);
  }

  lemma SafeHandlersCommit(states: seq<State>, log: Log, d: DeliveryId, handler: Handler)
    requires Played(states, log) && Obeys(log, d, handler) && Safe(handler)
    requires d in states[|log|].deliveries && states[|log|].deliveries[d].pc == Done(Processed)
    ensures CommittedBy(states[|log|].committed, d)
  {
    RunKept(states, log, d, handler, |log|);
    PlayedRuns(states, log);
    ProcessedMeansCommitted(states, |log|, d);
  }

  // ----- Every other handler can lose its effect

  /** A run of one delivery, numbered 0, that has come to `x` with nothing committed. */
  ghost predicate Alone(states: seq<State>, log: Log, handler: Handler, x: Delivery)
  {
    && Played(states, log) && Obeys(log, 0, handler)
    && states[|log|] == State({}, [], map[0 := x])
  }

  lemma Plays(states: seq<State>, log: Log, handler: Handler, x: Delivery, a: Action, x': Delivery)
    returns (states': seq<State>, log': Log)
    requires Alone(states, log, handler, x) && Can(states[|log|], 0, a) && Fits(log + [(0, a)], 0, handler, |log|)
    requires Step(states[|log|], 0, a) == State({}, [], map[0 := x'])
    ensures log' == log + [(0, a)] && Alone(states', log', handler, x')
    ensures Handled(log', 0) == Handled(log, 0) + if a.HandlerWrites? then [Statement(a.write, a.swallow)] else []
  {
    assert (log + [(0, a)])[..|log|] == log;
    states', log' := states + [Step(states[|log|], 0, a)], log + [(0, a)];
    forall i: nat | i < |log'| ensures PlayedAt(states', log', i) {
      if i < |log| {
        assert PlayedAt(states, log, i);
      }
    }
    forall i | 0 <= i < |log'| ensures Fits(log', 0, handler, i) {
      assert i < |log| ==> Fits(log, 0, handler, i) && log'[..i] == log[..i];
    }
  }

  /** A delivery whose handler is about to run, or has run some statements without a failure. */
  function Handling(message: Text, handled: seq<Statement>): Delivery
  {
    Delivery(message, Handle, Open(true, WritesOf(handled)), 1, 0, false, false)
  }

  lemma Starts(message: Text, handler: Handler) returns (states: seq<State>, log: Log)
    ensures Alone(states, log, handler, Handling(message, [])) && Handled(log, 0) == []
  {
    var x := Delivery(message, Connect, Gone, 0, 0, false, false);
    assert WritesOf([]) == [];
    states, log := [State({}, [], map[0 := x])], [];
    states, log := Plays(states, log, handler, x, Answer(Ok), x.(pc := Begin, session := Idle, acquired := 1));
    x := states[|log|].deliveries[0];
    states, log := Plays(states, log, handler, x, Answer(Ok), x.(pc := Claim, session := Open(false, [])));
    x := states[|log|].deliveries[0];
    states, log := Plays(states, log, handler, x, Answer(Ok), Handling(message, []));
  }

  /** The first `n` statements answer. */
  lemma {:induction false} Writes(message: Text, handler: Handler, n: nat) returns (states: seq<State>, log: Log)
    requires n <= |handler.statements|
    ensures Alone(states, log, handler, Handling(message, handler.statements[..n])) && Handled(log, 0) == handler.statements[..n]
  {
    if n == 0 {
      states, log := Starts(message, handler);
      assert handler.statements[..0] == [];
    } else {
      var q, done := handler.statements[n - 1], handler.statements[..n - 1];
      states, log := Writes(message, handler, n - 1);
      WritesAppend(done, q);
      assert handler.statements[..n] == done + [q];
      var a := HandlerWrites(q.write, Ok, q.swallow);
      assert (log + [(0, a)])[..|log|] == log;
      states, log := Plays(states, log, handler, Handling(message, done), a, Handling(message, handler.statements[..n]));
    }
  }

  /** The last statement is refused, the handler goes on and returns, and COMMIT rolls back without an error. */
  lemma UnsafeHandlerLosesEffect(message: Text, handler: Handler) returns (states: seq<State>, log: Log)
    requires !Safe(handler)
    ensures Played(states, log) && Obeys(log, 0, handler)
    ensures var s := states[|log|];
            && 0 in s.deliveries && s.deliveries[0].pc == Done(Processed) && s.deliveries[0].message == message
            && s.claims == {} && s.committed == []
  {
    var n := |handler.statements| - 1;
    var q := handler.statements[n];
    states, log := Writes(message, handler, n);
    assert handler.statements == handler.statements[..n] + [q];
    var x := Handling(message, handler.statements[..n]);
    var a := HandlerWrites(q.write, Failure(false, Refused), true);
    assert (log + [(0, a)])[..|log|] == log;
    var refused := x.(session := Aborted, swallowed := true);
    states, log := Plays(states, log, handler, x, a, refused);
    states, log := LosesCommit(states, log, handler, refused);
  }

  lemma LosesCommit(states: seq<State>, log: Log, handler: Handler, x: Delivery) returns (states': seq<State>, log': Log)
    requires Alone(states, log, handler, x) && x.pc.Handle? && x.session.Aborted? && !handler.throws
    requires Handled(log, 0) == handler.statements
    ensures Played(states', log') && Obeys(log', 0, handler)
    ensures states'[|log'|] == State({}, [], map[0 := x.(pc := Done(Processed), session := Idle, released := x.released + 1)])
  {
    assert (log + [(0, HandlerReturns)])[..|log|] == log;
    var y := x.(pc := Commit(Processed));
    states', log' := Plays(states, log, handler, x, HandlerReturns, y);
    var z := y.(pc := Release(Processed, false), session := Idle);
    states', log' := Plays(states', log', handler, y, Answer(Ok), z);
    states', log' := Plays(states', log', handler, z, Answer(Ok), z.(pc := Done(Processed), released := z.released + 1));
  }

  /** In every run of the handler, PROCESSED means that the delivery's effect is committed. */
  ghost predicate Reliable(handler: Handler)
  {
    forall states: seq<State>, log: Log, d: DeliveryId :: Played(states, log) && Obeys(log, d, handler) && Answers(states, log, d, Processed) ==>
      CommittedBy(states[|log|].committed, d)
  }

  ghost predicate Answers(states: seq<State>, log: Log, d: DeliveryId, result: Outcome)
    requires Played(states, log)
  {
    d in states[|log|].deliveries && states[|log|].deliveries[d].pc == Done(result)
  }

  /**
   PROCESSED can be relied on exactly for the handlers that do not go on after a failure of their last
   statement, or never return: once a statement has been refused the server refuses all later ones.
   */
  lemma ReliableIffSafe(handler: Handler)
    ensures Reliable(handler) <==> Safe(handler)
  {
    if Safe(handler) {
      forall states: seq<State>, log: Log, d: DeliveryId | Played(states, log) && Obeys(log, d, handler) && Answers(states, log, d, Processed)
        ensures CommittedBy(states[|log|].committed, d)
      {
        SafeHandlersCommit(states, log, d, handler);
      }
    } else {
      var states, log := UnsafeHandlerLosesEffect([], handler);
      assert Answers(states, log, 0, Processed);
    }
  }

  // ----- Logs of a delivery's own code

  /** Actions of other deliveries do not concern the handler of `d`. */
  lemma {:induction false} ForeignActs(log: Log, log': Log, d: DeliveryId, handler: Handler)
    requires log <= log' && forall i :: |log| <= i < |log'| ==> log'[i].0 != d
    ensures Handled(log', d) == Handled(log, d)
    ensures Obeys(log, d, handler) ==> Obeys(log', d, handler)
    decreases |log'|
  {
    if |log'| > |log| {
      var before := log'[..|log'| - 1];
      assert log' == before + [log'[|log'| - 1]];
      ForeignActs(log, before, d, handler);
      OwnAct(before, log'[|log'| - 1], d, handler);
    } else {
      assert log' == log;
    }
  }

  lemma OwnAct(log: Log, act: (DeliveryId, Action), d: DeliveryId, handler: Handler)
    ensures Handled(log + [act], d)
         == Handled(log, d) + if act.0 == d && act.1.HandlerWrites? then [Statement(act.1.write, act.1.swallow)] else []
    ensures Obeys(log, d, handler) && Fits(log + [act], d, handler, |log|) ==> Obeys(log + [act], d, handler)
  {
    var log' := log + [act];
    assert log'[..|log|] == log;
    if Obeys(log, d, handler) && Fits(log', d, handler, |log|) {
      forall i | 0 <= i < |log'| ensures Fits(log', d, handler, i) {
        assert i < |log| ==> Fits(log, d, handler, i) && log'[..i] == log[..i];
      }
    }
  }

  /** A delivery that has not connected yet has done nothing. */
  lemma {:induction false} NotStarted(states: seq<State>, log: Log, d: DeliveryId, n: nat)
    requires Played(states, log) && n <= |log| && d in states[n].deliveries && states[n].deliveries[d].pc.Connect?
    ensures forall i :: 0 <= i < n ==> log[i].0 != d
  {
    if n > 0 {
      assert PlayedAt(states, log, n - 1);
      StepPublishes(states[n - 1], log[n - 1].0, log[n - 1].1);
      NotStarted(states, log, d, n - 1);
    }
  }

  lemma NothingHandled(log: Log, d: DeliveryId, handler: Handler)
    requires forall i :: 0 <= i < |log| ==> log[i].0 != d
    ensures Handled(log, d) == [] && Obeys(log, d, handler)
  {
    ForeignActs([], log, d, handler);
  }
}
