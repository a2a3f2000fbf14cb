/**
 createIdempotentMessageProcessor.process over withTransaction, as imperative code. Other deliveries
 run between any two awaits; a script says what they do and how each statement ends. Every await is
 one step of the deduplication machine.
 */
module MessageProcessor {
  import opened JsText
  import opened Deduplication
  import opened HandlerSafety

  /** What other deliveries do before a statement answers, and its answer. */
  datatype Turn = Turn(others: seq<(DeliveryId, Action)>, reply: Reply)

  type Script = nat -> Turn

  /** No other delivery moves, and the statement answers. */
  const CALM := Turn([], Ok)

  ghost predicate Undisturbed(turns: Script) { forall i :: turns(i) == CALM }

  /** What one delivery answers when nothing disturbs it. */
  function Expected(s: State, message: Text, handler: Handler): Outcome
  {
    if message in s.claims then Duplicate else if handler.throws then Rejected else Processed
  }

  /** The tables are as they were, and the delivery's session has come to `session`. */
  predicate Came(before: State, now: State, me: DeliveryId, session: Session)
  {
    && now.claims == before.claims && now.committed == before.committed
    && me in before.deliveries && me in now.deliveries && now.deliveries[me].session == session
    && now.deliveries == before.deliveries[me := now.deliveries[me]]
  }

  /** A processed message has its claim and its handler's writes committed; otherwise the tables are as they were. */
  predicate Published(before: State, now: State, me: DeliveryId, result: Outcome, writes: seq<Write>)
  {
    && me in before.deliveries
    && var message := before.deliveries[me].message;
    && now.claims == (if result.Processed? then before.claims + {message} else before.claims)
    && now.committed == (if result.Processed? then before.committed + [Effects(me, message, writes)] else before.committed)
  }

  /** Only other deliveries have acted. */
  ghost predicate Foreign(log: Log, log': Log, me: DeliveryId)
  {
    log <= log' && forall i :: |log| <= i < |log'| ==> log'[i].0 != me
  }

  /** The delivery has issued the handler statements `more`, and nothing that its handler does not say. */
  ghost predicate Follows(log: Log, log': Log, me: DeliveryId, more: seq<Statement>)
  {
    && Handled(log', me) == Handled(log, me) + more
    && forall handler :: Obeys(log, me, handler) && (more == [] || Handled(log, me) + more <= handler.statements) ==>
         Obeys(log', me, handler)
  }

  lemma Acted(log: Log, log': Log, me: DeliveryId, a: Action)
    requires Foreign(log, log', me) && (a.Answer? || a.HandlerWrites?)
    ensures Follows(log, log' + [(me, a)], me, if a.HandlerWrites? then [Statement(a.write, a.swallow)] else [])
  {
    assert (log' + [(me, a)])[..|log'|] == log';
    var any := Handler([], false, false);
    ForeignActs(log, log', me, any);
    OwnAct(log', (me, a), me, any);
    var more := if a.HandlerWrites? then [Statement(a.write, a.swallow)] else [];
    forall handler | Obeys(log, me, handler) && (more == [] || Handled(log, me) + more <= handler.statements)
      ensures Obeys(log' + [(me, a)], me, handler)
    {
      ForeignActs(log, log', me, handler);
      OwnAct(log', (me, a), me, handler);
    }
  }

  lemma PlayExtends(states: seq<State>, log: Log, d: DeliveryId, a: Action)
    requires Played(states, log) && Can(states[|log|], d, a)
    ensures Played(states + [Step(states[|log|], d, a)], log + [(d, a)])
  {
    var states', log' := states + [Step(states[|log|], d, a)], log + [(d, a)];
    forall i: nat | i < |log'| ensures PlayedAt(states', log', i) {
      if i < |log| {
        assert PlayedAt(states, log, i);
      }
    }
  }

  class Broker {
    var state: State
    ghost var trace: seq<State>
    ghost var log: Log

    /** The store is in the last state of a run, and `log` holds the actions that made it. */
    ghost predicate Valid()
      reads this
    {
      Run(trace) && Played(trace, log) && trace[|log|] == state
    }

    constructor (messages: map<DeliveryId, Text>)
      ensures Valid() && state.committed == [] && state.deliveries.Keys == messages.Keys
      ensures forall d :: d in messages ==> state.deliveries[d] == Delivery(messages[d], Connect, Gone, 0, 0, false, false)
    {
      state := State({}, [], map d | d in messages :: Delivery(messages[d], Connect, Gone, 0, 0, false, false));
      log := [];
      new;
      trace := [state];
    }

    /** Delivery `d` of `message` is at `pc`. */
    ghost predicate At(d: DeliveryId, message: Text, pc: Pc)
      reads this
    {
      d in state.deliveries && state.deliveries[d].message == message && state.deliveries[d].pc == pc
    }

    method Act(d: DeliveryId, a: Action)
      requires Valid() && Can(state, d, a)
      modifies this
      ensures Valid() && state == Step(old(state), d, a) && old(trace) <= trace && log == old(log) + [(d, a)]
    {
      RunExtends(trace, Step(state, d, a));
      PlayExtends(trace, log, d, a);
      state := Step(state, d, a);
      trace, log := trace + [state], log + [(d, a)];
    }

    method Interleave(me: DeliveryId, moves: seq<(DeliveryId, Action)>)
      requires Valid() && me in state.deliveries
      modifies this
      ensures Valid() && old(trace) <= trace
      ensures me in state.deliveries && state.deliveries[me] == old(state).deliveries[me]
      ensures moves == [] ==> state == old(state)
      ensures Foreign(old(log), log, me)
    {
      for i := 0 to |moves|
        invariant Valid() && old(trace) <= trace
        invariant me in state.deliveries && state.deliveries[me] == old(state).deliveries[me]
        invariant i == 0 ==> state == old(state)
        invariant Foreign(old(log), log, me)
      {
        var (d, a) := moves[i];
        if d != me && Can(state, d, a) {
          StepPublishes(state, d, a);
          Act(d, a);
        }
      }
    }

    /** The reply that `me` gets: the scripted one, unless its connection or transaction cannot give it. */
    method Reached(me: DeliveryId, turn: Turn, ending: bool) returns (reply: Reply)
      requires Valid() && Live(state, me)
      modifies this
      ensures Valid() && old(trace) <= trace
      ensures me in state.deliveries && state.deliveries[me] == old(state).deliveries[me]
      ensures state.deliveries[me].pc.Connect? || Possible(state.deliveries[me].session, ending, reply)
      ensures Foreign(old(log), log, me)
      ensures var was := old(state).deliveries[me];
              turn == CALM && (was.pc.Connect? || Possible(was.session, ending, Ok)) ==> reply.Ok? && state == old(state)
    {
      Interleave(me, turn.others);
      reply := turn.reply;
      if !state.deliveries[me].pc.Connect? && !Possible(state.deliveries[me].session, ending, reply) {
        reply := Failure(Recognised(reply), Cut);
      }
    }

    /** An awaited call other than the claim: pool.connect, BEGIN, COMMIT or ROLLBACK. */
    method Ask(me: DeliveryId, turn: Turn) returns (reply: Reply)
      requires Valid() && Live(state, me)
      requires var pc := state.deliveries[me].pc; pc.Connect? || pc.Begin? || pc.Commit? || pc.Rollback?
      modifies this
      ensures Valid() && old(trace) <= trace
      ensures At(me, old(state).deliveries[me].message, match old(state).deliveries[me].pc
                 case Connect => if reply.Ok? then Begin else Done(Rejected)
                 case Begin => if reply.Ok? then Claim else Release(Rejected, Recognised(reply))
                 case Commit(result) => if reply.Ok? then Release(result, false) else Rollback(Recognised(reply))
                 case Rollback(recognised) => Release(Rejected, reply.Failure? || recognised)
                 case pc => pc)
      ensures var was := old(state).deliveries[me];
              turn == CALM && (was.session.Open? || (was.session.Idle? && was.pc.Begin?) || was.pc.Connect?) ==>
                reply.Ok? && state == Step(old(state), me, Answer(Ok))
      ensures Follows(old(log), log, me, [])
    {
      var pc := state.deliveries[me].pc;
      reply := Reached(me, turn, pc.Commit? || pc.Rollback?);
      Acted(old(log), log, me, Answer(reply));
      Act(me, Answer(reply));
    }

    /** tryCreate: a claim that would wait for ever is cancelled. */
    method TryCreate(me: DeliveryId, message: Text, turn: Turn) returns (reply: Reply, created: bool)
      requires Valid() && At(me, message, Claim)
      modifies this
      ensures Valid() && old(trace) <= trace
      ensures At(me, message, if reply.Failure? then Rollback(Recognised(reply))
                              else if created then Handle else Commit(Duplicate))
      ensures reply.Ok? && !created ==> message in state.claims
      ensures turn == CALM && old(state).deliveries[me].session == Open(false, []) && !Waits(old(state), me) ==>
                && reply.Ok? && created == (message !in old(state).claims)
                && Came(old(state), state, me, Open(created, []))
      ensures Follows(old(log), log, me, [])
    {
      reply := Reached(me, turn, false);
      if TakesEffect(reply) && Waits(state, me) {
        reply := Failure(Recognised(reply), Refused);
        RunKeeps(trace, |trace| - 1);
        assert DeliveryOk(state, me);
      }
      created := message !in state.claims;
      Acted(old(log), log, me, Answer(reply));
      Act(me, Answer(reply));
    }

    method RunStatement(me: DeliveryId, message: Text, q: Statement, turn: Turn) returns (reply: Reply)
      requires Valid() && At(me, message, Handle)
      modifies this
      ensures Valid() && old(trace) <= trace
      ensures At(me, message, if reply.Failure? && !q.swallow then Rollback(Recognised(reply)) else Handle)
      ensures var was := old(state).deliveries[me].session;
              turn == CALM && was.Open? ==> reply.Ok? && Came(old(state), state, me, Open(was.claimed, was.writes + [q.write]))
      ensures Follows(old(log), log, me, [q])
    {
      reply := Reached(me, turn, false);
      Acted(old(log), log, me, HandlerWrites(q.write, reply, q.swallow));
      Act(me, HandlerWrites(q.write, reply, q.swallow));
    }
  }

  /** The handler's own statements, one after the other, until one of its failures gets out. */
  method RunStatements(broker: Broker, me: DeliveryId, message: Text, handler: Handler, turns: Script)
    returns (completed: bool, recognised: bool)
    requires broker.Valid() && broker.At(me, message, Handle)
    requires Obeys(broker.log, me, handler) && Handled(broker.log, me) == []
    modifies broker
    ensures broker.Valid() && old(broker.trace) <= broker.trace
    ensures broker.At(me, message, if completed then Handle else Rollback(recognised))
    ensures Obeys(broker.log, me, handler) && (completed ==> Handled(broker.log, me) == handler.statements)
    ensures Undisturbed(turns) && old(broker.state).deliveries[me].session == Open(true, []) ==>
              completed && Came(old(broker.state), broker.state, me, Open(true, WritesOf(handler.statements)))
  {
    assert WritesOf(handler.statements[..0]) == [];
    for i := 0 to |handler.statements|
      invariant broker.Valid() && old(broker.trace) <= broker.trace
      invariant broker.At(me, message, Handle)
      invariant Obeys(broker.log, me, handler) && Handled(broker.log, me) == handler.statements[..i]
      invariant Undisturbed(turns) && old(broker.state).deliveries[me].session == Open(true, []) ==>
                  Came(old(broker.state), broker.state, me, Open(true, WritesOf(handler.statements[..i])))
    {
      WritesAppend(handler.statements[..i], handler.statements[i]);
      assert handler.statements[..i + 1] == handler.statements[..i] + [handler.statements[i]];
      var reply := broker.RunStatement(me, message, handler.statements[i], turns(5 + i));
      if reply.Failure? && !handler.statements[i].swallow {
        return false, Recognised(reply);
      }
    }
    assert handler.statements[..|handler.statements|] == handler.statements;
    completed, recognised := true, false;
  }

  /**
   When the handler returns, a transaction that is still open holds all its writes, and a safe
   handler's is not aborted.
   */
  method RunHandler(broker: Broker, me: DeliveryId, message: Text, handler: Handler, turns: Script)
    returns (returned: bool, recognised: bool)
    requires broker.Valid() && broker.At(me, message, Handle)
    requires Obeys(broker.log, me, handler) && Handled(broker.log, me) == []
    modifies broker
    ensures broker.Valid() && old(broker.trace) <= broker.trace && Obeys(broker.log, me, handler)
    ensures broker.At(me, message, if returned then Commit(Processed) else Rollback(recognised))
    ensures returned ==>
              var session := broker.state.deliveries[me].session;
              && (session.Open? ==> session.writes == WritesOf(handler.statements))
              && (Safe(handler) ==> !session.Aborted?)
    ensures Undisturbed(turns) && old(broker.state).deliveries[me].session == Open(true, []) ==>
              && returned == !handler.throws && (!returned ==> recognised == handler.recognised)
              && Came(old(broker.state), broker.state, me, Open(true, WritesOf(handler.statements)))
  {
    var completed;
    completed, recognised := RunStatements(broker, me, message, handler, turns);
    returned := completed && !handler.throws;
    if completed {
      recognised := handler.recognised;
      ghost var before := broker.log;
      var a := if returned then HandlerReturns else HandlerThrows(recognised);
      broker.Act(me, a);
      assert broker.log[..|before|] == before;
      OwnAct(before, (me, a), me, handler);
      RunKept(broker.trace, broker.log, me, handler, |broker.log|);
    }
  }

  /** The operation run inside the transaction: claim the message, then run its handler. */
  method ClaimAndHandle(broker: Broker, me: DeliveryId, message: Text, handler: Handler, turns: Script)
    returns (result: Outcome, recognised: bool)
    requires broker.Valid() && broker.At(me, message, Claim)
    requires Obeys(broker.log, me, handler) && Handled(broker.log, me) == []
    modifies broker
    ensures broker.Valid() && old(broker.trace) <= broker.trace && Obeys(broker.log, me, handler)
    ensures broker.At(me, message, if result.Rejected? then Rollback(recognised) else Commit(result))
    ensures Undisturbed(turns) && !Waits(old(broker.state), me)
            && old(broker.state).deliveries[me].session == Open(false, []) ==>
              && result == Expected(old(broker.state), message, handler)
              && (result.Rejected? ==> recognised == handler.recognised)
              && Came(old(broker.state), broker.state, me,
                      if result.Duplicate? then Open(false, []) else Open(true, WritesOf(handler.statements)))
  {
    var reply, created := broker.TryCreate(me, message, turns(4));
    if reply.Failure? {
      return Rejected, Recognised(reply);
    }
    if !created {
      return Duplicate, false;
    }
    var returned;
    returned, recognised := RunHandler(broker, me, message, handler, turns);
    result := if returned then Processed else Rejected;
  }

  /** COMMIT after a return, ROLLBACK after a throw or a failed COMMIT. */
  method EndTransaction(broker: Broker, me: DeliveryId, message: Text, handler: Handler, outcome: Outcome, cause: bool,
                        turns: Script)
    returns (result: Outcome, discard: bool)
    requires broker.Valid() && broker.At(me, message, if outcome.Rejected? then Rollback(cause) else Commit(outcome))
    requires Obeys(broker.log, me, handler)
    modifies broker
    ensures broker.Valid() && old(broker.trace) <= broker.trace && Obeys(broker.log, me, handler)
    ensures broker.At(me, message, Release(result, discard))
    ensures var session := old(broker.state).deliveries[me].session;
            Undisturbed(turns) && session.Open? && (session.claimed <==> !outcome.Duplicate?) ==>
              && result == outcome && discard == (result.Rejected? && cause)
              && broker.state.deliveries[me].session.Idle?
              && Published(old(broker.state), broker.state, me, result, session.writes)
  {
    assert Undisturbed(turns) ==> turns(2) == CALM && turns(3) == CALM;
    result, discard := outcome, false;
    var recognised := cause;
    if !result.Rejected? {
      var committed := broker.Ask(me, turns(2));
      if committed.Failure? {
        result, recognised := Rejected, Recognised(committed);
      }
    }
    if result.Rejected? {
      var rolledBack := broker.Ask(me, turns(3));
      discard := rolledBack.Failure? || recognised;
    }
  }

  /** withTransaction around the operation; what it leaves to do is to release the connection. */
  method Transact(broker: Broker, me: DeliveryId, message: Text, handler: Handler, turns: Script)
    returns (result: Outcome, discard: bool)
    requires broker.Valid() && broker.At(me, message, Begin)
    requires Obeys(broker.log, me, handler) && Handled(broker.log, me) == []
    modifies broker
    ensures broker.Valid() && old(broker.trace) <= broker.trace && Obeys(broker.log, me, handler)
    ensures broker.At(me, message, Release(result, discard))
    ensures Undisturbed(turns) && old(broker.state).deliveries[me].session.Idle? && !Waits(old(broker.state), me) ==>
              && result == Expected(old(broker.state), message, handler)
              && discard == (result.Rejected? && handler.recognised) && broker.state.deliveries[me].session.Idle?
              && Published(old(broker.state), broker.state, me, result, WritesOf(handler.statements))
  {
    assert Undisturbed(turns) ==> turns(1) == CALM;
    var begun := broker.Ask(me, turns(1));
    if begun.Failure? {
      return Rejected, Recognised(begun);
    }
    var recognised;
    result, recognised := ClaimAndHandle(broker, me, message, handler, turns);
    result, discard := EndTransaction(broker, me, message, handler, result, recognised, turns);
  }

  /**
   process: the connection is released on every path on which it was acquired. Whatever disturbs it,
   what is committed for the delivery is all of its handler's writes or nothing, and after PROCESSED
   of a safe handler it is committed. Undisturbed, the connection is kept, with no transaction on it,
   unless the handler throws an error that is taken for a connection failure.
   */
  method Process(broker: Broker, me: DeliveryId, message: Text, handler: Handler, turns: Script) returns (result: Outcome)
    requires broker.Valid() && broker.At(me, message, Connect)
    modifies broker
    ensures broker.Valid() && old(broker.trace) <= broker.trace
    ensures broker.At(me, message, Done(result))
    ensures broker.state.deliveries[me].released == broker.state.deliveries[me].acquired
    ensures result.Duplicate? ==> Count(broker.state.committed, message) == 1
    ensures result.Processed? ==>
              (CommittedBy(broker.state.committed, me) <==> !broker.state.deliveries[me].swallowed)
    ensures result.Processed? && Safe(handler) ==> CommittedBy(broker.state.committed, me)
    ensures Whole(broker.state.committed, me, handler)
    ensures Undisturbed(turns) && !Waits(old(broker.state), me) ==>
              && result == Expected(old(broker.state), message, handler)
              && Published(old(broker.state), broker.state, me, result, WritesOf(handler.statements))
              && broker.state.deliveries[me].session == if result.Rejected? && handler.recognised then Gone else Idle
  {
    NotStarted(broker.trace, broker.log, me, |broker.log|);
    NothingHandled(broker.log, me, handler);
    var connected := broker.Ask(me, turns(0));
    if connected.Failure? {
      result := Rejected;
    } else {
      var discard;
      result, discard := Transact(broker, me, message, handler, turns);
      OwnAct(broker.log, (me, Answer(Ok)), me, handler);
      broker.Act(me, Answer(Ok));
    }
    AnswersTrue(broker.trace, |broker.trace| - 1, me);
    AnswersSafely(broker.trace, broker.log, me, handler);
  }

  lemma AnswersTrue(states: seq<State>, i: nat, d: DeliveryId)
    requires Run(states) && i < |states| && d in states[i].deliveries && states[i].deliveries[d].pc.Done?
    ensures var x := states[i].deliveries[d];
            && x.released == x.acquired
            && (x.pc.result.Duplicate? ==> Count(states[i].committed, x.message) == 1)
            && (x.pc.result.Processed? ==> (CommittedBy(states[i].committed, d) <==> !x.swallowed))
  {
    RunKeeps(states, i);
    assert DeliveryOk(states[i], d);
  }

  lemma AnswersSafely(states: seq<State>, log: Log, me: DeliveryId, handler: Handler)
    requires Played(states, log) && Obeys(log, me, handler) && me in states[|log|].deliveries
    ensures Whole(states[|log|].committed, me, handler)
    ensures states[|log|].deliveries[me].pc == Done(Processed) && Safe(handler) ==> CommittedBy(states[|log|].committed, me)
  {
    RunKept(states, log, me, handler, |log|);
    if states[|log|].deliveries[me].pc == Done(Processed) && Safe(handler) {
      SafeHandlersCommit(states, log, me, handler);
    }
  }
}
