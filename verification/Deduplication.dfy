/**
 Message deliveries through the idempotent processor: withTransaction around a unique claim and the
 handler's writes. Any number of deliveries, of the same or of different messages, run side by side.
 */
module Deduplication {
  import opened Wrappers
  import opened JsText

  type DeliveryId = nat

  type Write = nat

  /**
   How a statement ends. A failure is refused by the server, applied with its answer lost, or cuts
   the connection; `recognised` says whether the client takes its code for a connection failure.
   */
  datatype Reply = Ok | Failure(recognised: bool, effect: Effect)

  datatype Effect = Refused | Applied | Cut

  /** The server's side of a connection: the transaction on it, if any. */
  datatype Session = Idle | Open(claimed: bool, writes: seq<Write>) | Aborted | Gone

  datatype Outcome = Processed | Duplicate | Rejected

  datatype Pc =
    | Connect
    | Begin
    | Claim
    | Handle
    | Commit(result: Outcome)
    | Rollback(recognised: bool)
    | Release(result: Outcome, discard: bool)
    | Done(result: Outcome)

  /**
   `swallowed`: the handler went on after one of its statements had been refused.
   `strayBegin`: BEGIN took effect but failed with an error not recognised as a connection failure.
   */
  datatype Delivery = Delivery(message: Text, pc: Pc, session: Session, acquired: nat, released: nat,
                               swallowed: bool, strayBegin: bool)

  /** Handler writes committed by one delivery. */
  datatype Effects = Effects(delivery: DeliveryId, message: Text, writes: seq<Write>)

  datatype State = State(claims: set<Text>, committed: seq<Effects>, deliveries: map<DeliveryId, Delivery>)

  /** What the awaited call of a delivery does. */
  datatype Action =
    | Answer(reply: Reply)
    | HandlerWrites(write: Write, reply: Reply, swallow: bool)
    | HandlerReturns
    | HandlerThrows(recognised: bool)

  // ----- Sessions

  /** A refused statement aborts an open transaction, and a refused COMMIT or BEGIN leaves none. */
  function Refuse(x: Session, ending: bool): Session
  {
    if x.Gone? then Gone else if ending || x.Idle? then Idle else Aborted
  }

  /** The session after a statement whose application gives `applied`. */
  function After(x: Session, applied: Session, ending: bool, reply: Reply): Session
  {
    match reply
    case Ok => applied
    case Failure(_, Applied) => applied
    case Failure(_, Refused) => Refuse(x, ending)
    case Failure(_, Cut) => Gone
  }

  predicate TakesEffect(reply: Reply) { reply.Ok? || reply.effect.Applied? }

  /** A cut connection answers nothing, and an aborted transaction accepts only its end. */
  predicate Possible(x: Session, ending: bool, reply: Reply)
  {
    && (x.Gone? ==> reply.Failure? && reply.effect.Cut?)
    && (x.Aborted? && !ending ==> !TakesEffect(reply))
  }

  function AddWrite(x: Session, w: Write): Session
  {
    if x.Open? then x.(writes := x.writes + [w]) else x
  }

  // ----- Steps

  predicate InFlight(s: State, d: DeliveryId, message: Text)
  {
    d in s.deliveries && s.deliveries[d].message == message && s.deliveries[d].session.Open? && s.deliveries[d].session.claimed
  }

  /** INSERT .. ON CONFLICT waits while another delivery's claim of the message is undecided. */
  predicate Waits(s: State, d: DeliveryId)
  {
    d in s.deliveries && exists e :: e in s.deliveries && e != d && InFlight(s, e, s.deliveries[d].message)
  }

  predicate Live(s: State, d: DeliveryId) { d in s.deliveries && !s.deliveries[d].pc.Done? }

  /** The action fits the control point and the session. */
  predicate Can(s: State, d: DeliveryId, a: Action)
  {
    && Live(s, d)
    && var x := s.deliveries[d];
    match x.pc
    case Connect => a.Answer?
    case Begin => a.Answer? && Possible(x.session, false, a.reply)
    case Claim => a.Answer? && Possible(x.session, false, a.reply) && (TakesEffect(a.reply) ==> !Waits(s, d))
    case Handle => a.HandlerReturns? || a.HandlerThrows? || (a.HandlerWrites? && Possible(x.session, false, a.reply))
    case Commit(_) => a.Answer? && Possible(x.session, true, a.reply)
    case Rollback(_) => a.Answer? && Possible(x.session, true, a.reply)
    case Release(_, _) => a == Answer(Ok)
    case Done(_) => false
  }

  function Put(s: State, d: DeliveryId, x: Delivery): State { s.(deliveries := s.deliveries[d := x]) }

  /** COMMIT of an open claim publishes the claim and the handler's writes together. */
  function Publish(s: State, d: DeliveryId): State
    requires d in s.deliveries
  {
    var x := s.deliveries[d];
    if x.session.Open? && x.session.claimed
    then s.(claims := s.claims + {x.message}, committed := s.committed + [Effects(d, x.message, x.session.writes)])
    else s
  }

  function Recognised(reply: Reply): bool { reply.Failure? && reply.recognised }

  function Step(s: State, d: DeliveryId, a: Action): State
    requires Live(s, d)
  {
    var x := s.deliveries[d];
    match (x.pc, a)
    case (Connect, Answer(reply)) =>
      Put(s, d, if reply.Ok? then x.(pc := Begin, session := Idle, acquired := 1) else x.(pc := Done(Rejected)))
    case (Begin, Answer(reply)) =>
      var session := After(x.session, Open(false, []), true, reply);
      Put(s, d, x.(session := session, pc := if reply.Ok? then Claim else Release(Rejected, reply.recognised),
                   strayBegin := reply.Failure? && !reply.recognised && reply.effect.Applied?))
    case (Claim, Answer(reply)) =>
      var duplicate := x.message in s.claims;
      var claimed := if duplicate || !x.session.Open? then x.session else x.session.(claimed := true);
      var session := After(x.session, claimed, false, reply);
      Put(s, d, x.(session := session,
                   pc := if reply.Failure? then Rollback(reply.recognised) else if duplicate then Commit(Duplicate) else Handle))
    case (Handle, HandlerWrites(w, reply, swallow)) =>
      var session := After(x.session, AddWrite(x.session, w), false, reply);
      Put(s, d, x.(session := session,
                   swallowed := x.swallowed || (reply.Failure? && reply.effect.Refused? && swallow),
                   pc := if reply.Failure? && !swallow then Rollback(reply.recognised) else Handle))
    case (Handle, HandlerReturns) => Put(s, d, x.(pc := Commit(Processed)))
    case (Handle, HandlerThrows(recognised)) => Put(s, d, x.(pc := Rollback(recognised)))
    case (Commit(result), Answer(reply)) =>
      var s' := if TakesEffect(reply) then Publish(s, d) else s;
      Put(s', d, x.(session := After(x.session, Idle, true, reply),
                    pc := if reply.Ok? then Release(result, false) else Rollback(reply.recognised)))
    case (Rollback(recognised), Answer(reply)) =>
      var session := if reply.Failure? && reply.effect.Refused? then x.session else After(x.session, Idle, true, reply);
      Put(s, d, x.(session := session, pc := Release(Rejected, reply.Failure? || recognised)))
    case (Release(result, discard), Answer(_)) =>
      Put(s, d, x.(pc := Done(result), released := x.released + 1, session := if discard then Gone else x.session))
    case _ => s
  }

  ghost predicate Next(s: State, s': State)
  {
    exists d, a :: Can(s, d, a) && s' == Step(s, d, a)
  }

  ghost predicate Init(s: State)
  {
    && s.claims == {} && s.committed == []
    && forall d :: d in s.deliveries ==> s.deliveries[d] == Delivery(s.deliveries[d].message, Connect, Gone, 0, 0, false, false)
  }

  ghost predicate StepAt(states: seq<State>, i: nat) { i + 1 < |states| && Next(states[i], states[i + 1]) }

  ghost predicate Run(states: seq<State>)
  {
    |states| > 0 && Init(states[0]) && forall i: nat :: i + 1 < |states| ==> StepAt(states, i)
  }

  // ----- What is counted

  ghost function Count(h: seq<Effects>, message: Text): nat
  {
    if h == [] then 0 else Count(h[..|h| - 1], message) + if h[|h| - 1].message == message then 1 else 0
  }

  ghost predicate CommittedBy(h: seq<Effects>, d: DeliveryId)
  {
    exists i :: 0 <= i < |h| && h[i].delivery == d
  }

  // ----- The invariant

  predicate Undecided(x: Session) { x.Open? && x.claimed }

  /** A session that can serve another transaction. */
  predicate Clean(x: Session) { x.Idle? || x.Gone? }

  ghost predicate DeliveryOk(s: State, d: DeliveryId)
  {
    d in s.deliveries ==>
      var x := s.deliveries[d];
      && (Undecided(x.session) ==> x.message !in s.claims)
      && (x.acquired == if x.pc.Connect? || (x.pc.Done? && x.acquired == 0) then 0 else 1)
      && (x.released == if x.pc.Done? then x.acquired else 0)
      && (CommittedBy(s.committed, d) ==> x.pc.Rollback? || x.pc.Release? || x.pc.Done?)
      && match x.pc
         case Connect => x.session.Gone? && !x.swallowed && !x.strayBegin
         case Begin => x.session.Idle? && !x.swallowed && !x.strayBegin
         case Claim => x.session == Open(false, []) && !x.swallowed && !x.strayBegin
         case Handle => HandlerOk(x)
         case Commit(result) =>
           && !x.strayBegin
           && (result.Processed? || (result.Duplicate? && x.message in s.claims && x.session == Open(false, [])))
           && (result.Processed? ==> HandlerOk(x))
         case Rollback(_) => !x.strayBegin
         case Release(result, discard) =>
           && ResultOk(s, d, result)
           && (Undecided(x.session) ==> discard)
           && (!discard ==> (Clean(x.session) <==> !x.strayBegin))
         case Done(result) => ResultOk(s, d, result) && !Undecided(x.session) && (x.acquired == 0 ==> result.Rejected?)
  }

  /** While the handler runs, its transaction is open with the claim, or lost. */
  predicate HandlerOk(x: Delivery)
  {
    && !x.session.Idle? && !x.strayBegin
    && (x.session.Open? ==> x.session.claimed && !x.swallowed)
    && (x.session.Aborted? ==> x.swallowed)
  }

  ghost predicate ResultOk(s: State, d: DeliveryId, result: Outcome)
    requires d in s.deliveries
  {
    var x := s.deliveries[d];
    && (result.Duplicate? ==> x.message in s.claims)
    && (result.Processed? ==> (CommittedBy(s.committed, d) <==> !x.swallowed))
  }

  ghost predicate Inv(s: State)
  {
    && (forall d :: DeliveryOk(s, d))
    && (forall d, e, m :: InFlight(s, d, m) && InFlight(s, e, m) ==> d == e)
    && (forall m :: Count(s.committed, m) == if m in s.claims then 1 else 0)
    && (forall i :: 0 <= i < |s.committed| ==>
          s.committed[i].delivery in s.deliveries && s.deliveries[s.committed[i].delivery].message == s.committed[i].message)
  }

  lemma CountExtends(h: seq<Effects>, e: Effects, message: Text)
    ensures Count(h + [e], message) == Count(h, message) + if e.message == message then 1 else 0
  {
    assert (h + [e])[..|h|] == h;
  }

  lemma CommittedExtends(h: seq<Effects>, e: Effects, d: DeliveryId)
    ensures CommittedBy(h + [e], d) <==> CommittedBy(h, d) || e.delivery == d
  {
    assert (h + [e])[|h|] == e;
    if i: nat :| i < |h| && h[i].delivery == d {
      assert (h + [e])[i].delivery == d;
    }
  }

  lemma StepKeepsFlights(s: State, d: DeliveryId, a: Action)
    requires Inv(s) && Can(s, d, a)
    ensures forall e, f, m :: InFlight(Step(s, d, a), e, m) && InFlight(Step(s, d, a), f, m) ==> e == f
  {
    var s' := Step(s, d, a);
    forall e, f, m | InFlight(s', e, m) && InFlight(s', f, m) ensures e == f {
      assert e != d ==> InFlight(s, e, m);
      assert f != d ==> InFlight(s, f, m);
      NewFlight(s, d, a);
    }
  }

  /** A step puts a claim in flight only where no other delivery's claim of the message is. */
  lemma NewFlight(s: State, d: DeliveryId, a: Action)
    requires Inv(s) && Can(s, d, a)
    ensures Undecided(Step(s, d, a).deliveries[d].session) ==>
              InFlight(s, d, s.deliveries[d].message)
              || forall e :: e != d ==> !InFlight(s, e, s.deliveries[d].message)
  {
    assert DeliveryOk(s, d);
  }

  lemma StepPublishes(s: State, d: DeliveryId, a: Action)
    requires Can(s, d, a)
    ensures var s' := Step(s, d, a);
            && d in s'.deliveries && s'.deliveries == s.deliveries[d := s'.deliveries[d]]
            && s'.deliveries[d].message == s.deliveries[d].message
            && ((s'.claims == s.claims && s'.committed == s.committed) ||
                (s.deliveries[d].pc.Commit? && Undecided(s.deliveries[d].session)
                 && s'.claims == Publish(s, d).claims && s'.committed == Publish(s, d).committed))
  {}

  lemma StepKeepsCounts(s: State, d: DeliveryId, a: Action)
    requires Inv(s) && Can(s, d, a)
    ensures forall m :: Count(Step(s, d, a).committed, m) == if m in Step(s, d, a).claims then 1 else 0
    ensures var s' := Step(s, d, a);
            forall i :: 0 <= i < |s'.committed| ==>
              s'.committed[i].delivery in s'.deliveries
              && s'.deliveries[s'.committed[i].delivery].message == s'.committed[i].message
  {
    var s' := Step(s, d, a);
    StepPublishes(s, d, a);
    assert DeliveryOk(s, d);
    if s'.committed != s.committed {
      forall m ensures Count(s'.committed, m) == if m in s'.claims then 1 else 0 {
        CountExtends(s.committed, Effects(d, s.deliveries[d].message, s.deliveries[d].session.writes), m);
      }
    }
  }

  lemma StepKeepsOther(s: State, d: DeliveryId, a: Action, e: DeliveryId)
    requires Inv(s) && Can(s, d, a) && e != d
    ensures DeliveryOk(Step(s, d, a), e)
  {
    StepPublishes(s, d, a);
    assert DeliveryOk(s, e);
    if e in s.deliveries && Step(s, d, a).committed != s.committed {
      CommittedExtends(s.committed, Effects(d, s.deliveries[d].message, s.deliveries[d].session.writes), e);
      if Undecided(s.deliveries[e].session) && s.deliveries[e].message == s.deliveries[d].message {
        assert InFlight(s, e, s.deliveries[d].message) && InFlight(s, d, s.deliveries[d].message);
      }
    }
  }

  lemma StepKeepsOwn(s: State, d: DeliveryId, a: Action)
    requires Inv(s) && Can(s, d, a)
    ensures DeliveryOk(Step(s, d, a), d)
  {
    assert DeliveryOk(s, d);
    if s.deliveries[d].pc.Commit? {
      var x := s.deliveries[d];
      CommittedExtends(s.committed, Effects(d, x.message, if x.session.Open? then x.session.writes else []), d);
    }
  }

  lemma NextKeeps(s: State, s': State)
    requires Inv(s) && Next(s, s')
    ensures Inv(s')
  {
    var d, a :| Can(s, d, a) && s' == Step(s, d, a);
    forall e ensures DeliveryOk(s', e) {
      if e == d { StepKeepsOwn(s, d, a); } else { StepKeepsOther(s, d, a, e); }
    }
    StepKeepsFlights(s, d, a);
    StepKeepsCounts(s, d, a);
  }

  lemma {:induction false} InvStep(states: seq<State>, i: nat)
    requires Run(states) && 0 < i < |states|
    ensures Inv(states[i])
    decreases i, 0
  {
    RunKeeps(states, i - 1);
    assert StepAt(states, i - 1);
    NextKeeps(states[i - 1], states[i]);
  }

  lemma {:induction false} RunKeeps(states: seq<State>, i: nat)
    requires Run(states) && i < |states|
    ensures Inv(states[i])
    decreases i, 1
  {
    if i > 0 {
      InvStep(states, i);
    }
  }

  // ----- Whole-run results

  /**
   However often a message is delivered, and whatever fails, its handler's writes are committed
   exactly once if its claim is committed and not at all otherwise.
   */
  lemma EffectsOncePerMessage(states: seq<State>, i: nat, message: Text)
    requires Run(states) && i < |states|
    ensures Count(states[i].committed, message) == if message in states[i].claims then 1 else 0
  {
    RunKeeps(states, i);
  }

  /** DUPLICATE is answered only when the message's effect is committed. */
  lemma DuplicateMeansCommitted(states: seq<State>, i: nat, d: DeliveryId)
    requires Run(states) && i < |states|
    requires d in states[i].deliveries && states[i].deliveries[d].pc == Done(Duplicate)
    ensures Count(states[i].committed, states[i].deliveries[d].message) == 1
  {
    RunKeeps(states, i);
    assert DeliveryOk(states[i], d);
  }

  /**
   PROCESSED means that this delivery's effect is committed, if and only if its handler did not go
   on after a refused statement: PostgreSQL answers the COMMIT of an aborted transaction by rolling
   it back, without an error.
   */
  lemma ProcessedMeansCommitted(states: seq<State>, i: nat, d: DeliveryId)
    requires Run(states) && i < |states|
    requires d in states[i].deliveries && states[i].deliveries[d].pc == Done(Processed)
    ensures CommittedBy(states[i].committed, d) <==> !states[i].deliveries[d].swallowed
  {
    RunKeeps(states, i);
    assert DeliveryOk(states[i], d);
  }

  /** A connection is released once if it was acquired, when the call ends, and never otherwise. */
  lemma ReleasedExactlyOnce(states: seq<State>, i: nat, d: DeliveryId)
    requires Run(states) && i < |states| && d in states[i].deliveries
    ensures var x := states[i].deliveries[d];
            && x.acquired <= 1
            && x.released == (if x.pc.Done? then x.acquired else 0)
            && (x.pc.Done? && !x.pc.result.Rejected? ==> x.acquired == 1)
  {
    RunKeeps(states, i);
    assert DeliveryOk(states[i], d);
  }

  /**
   A connection that goes back to the pool carries no open transaction, unless its BEGIN took
   effect and failed with an error that is not recognised as a connection failure.
   */
  lemma PooledConnectionsClean(states: seq<State>, i: nat, d: DeliveryId, result: Outcome)
    requires Run(states) && i < |states|
    requires d in states[i].deliveries && states[i].deliveries[d].pc == Release(result, false)
    ensures Clean(states[i].deliveries[d].session) <==> !states[i].deliveries[d].strayBegin
  {
    RunKeeps(states, i);
    assert DeliveryOk(states[i], d);
  }

  lemma RunExtends(states: seq<State>, s: State)
    requires Run(states) && Next(states[|states| - 1], s)
    ensures Run(states + [s])
  {
    var longer := states + [s];
    forall i: nat | i + 1 < |longer| ensures StepAt(longer, i) {
      if i + 1 < |states| {
        assert StepAt(states, i);
      }
    }
  }

  lemma Extended(states: seq<State>, d: DeliveryId, a: Action) returns (longer: seq<State>)
    requires Run(states) && Can(states[|states| - 1], d, a)
    ensures Run(longer) && |longer| > 0 && longer[|longer| - 1] == Step(states[|states| - 1], d, a)
  {
    RunExtends(states, Step(states[|states| - 1], d, a));
    longer := states + [Step(states[|states| - 1], d, a)];
  }

  /** A run in which a delivery answers PROCESSED and nothing is committed. */
  lemma SwallowedFailureLosesEffect(message: Text) returns (states: seq<State>)
    ensures Run(states)
    ensures var s := states[|states| - 1];
            && 0 in s.deliveries && s.deliveries[0].pc == Done(Processed) && s.deliveries[0].message == message
            && s.claims == {} && s.committed == []
  {
    states := [State({}, [], map[0 := Delivery(message, Connect, Gone, 0, 0, false, false)])];
    states := Extended(states, 0, Answer(Ok));
    states := Extended(states, 0, Answer(Ok));
    states := Extended(states, 0, Answer(Ok));
    states := Extended(states, 0, HandlerWrites(7, Failure(false, Refused), true));
    states := Extended(states, 0, HandlerReturns);
    states := Extended(states, 0, Answer(Ok));
    states := Extended(states, 0, Answer(Ok));
  }

  /** Two deliveries of one message, the first of them about to commit. */
  lemma AboutToCommit(message: Text) returns (states: seq<State>)
    ensures Run(states)
    ensures states[|states| - 1]
         == State({}, [], map[0 := Delivery(message, Commit(Processed), Open(true, [7]), 1, 0, false, false),
                              1 := Delivery(message, Connect, Gone, 0, 0, false, false)])
  {
    var x := Delivery(message, Connect, Gone, 0, 0, false, false);
    states := [State({}, [], map[0 := x, 1 := x])];
    states := Extended(states, 0, Answer(Ok));
    states := Extended(states, 0, Answer(Ok));
    states := Extended(states, 0, Answer(Ok));
    assert states[|states| - 1].deliveries[0] == Delivery(message, Handle, Open(true, []), 1, 0, false, false);
    states := Extended(states, 0, HandlerWrites(7, Ok, false));
    assert [] + [7] == [7 as Write];
    states := Extended(states, 0, HandlerReturns);
    var y := states[|states| - 1].deliveries;
    assert y == map[0 := y[0], 1 := x];
  }

  lemma LostCommit(message: Text) returns (states: seq<State>)
    ensures Run(states)
    ensures states[|states| - 1]
         == State({message}, [Effects(0, message, [7])],
                  map[0 := Delivery(message, Done(Rejected), Gone, 1, 1, false, false),
                      1 := Delivery(message, Connect, Gone, 0, 0, false, false)])
  {
    states := AboutToCommit(message);
    states := Extended(states, 0, Answer(Failure(true, Applied)));
    states := Extended(states, 0, Answer(Ok));
    states := Extended(states, 0, Answer(Ok));
    var y := states[|states| - 1].deliveries;
    assert y == map[0 := y[0], 1 := y[1]];
  }

  /** A run in which a delivery is rejected although its COMMIT took effect; the redelivery is then a DUPLICATE, with one effect. */
  lemma LostCommitIsDuplicateLater(message: Text) returns (states: seq<State>)
    ensures Run(states)
    ensures var s := states[|states| - 1];
            && 0 in s.deliveries && s.deliveries[0].pc == Done(Rejected) && s.deliveries[0].message == message
            && 1 in s.deliveries && s.deliveries[1].pc == Done(Duplicate) && s.deliveries[1].message == message
            && s.claims == {message} && s.committed == [Effects(0, message, [7])]
  {
    states := LostCommit(message);
    states := Extended(states, 1, Answer(Ok));
    states := Extended(states, 1, Answer(Ok));
    states := Extended(states, 1, Answer(Ok));
    states := Extended(states, 1, Answer(Ok));
    states := Extended(states, 1, Answer(Ok));
  }

  /** A run in which a pooled connection keeps an open transaction. */
  lemma StrayBeginStaysOpen(message: Text) returns (states: seq<State>)
    ensures Run(states)
    ensures var s := states[|states| - 1];
            0 in s.deliveries && s.deliveries[0].pc == Release(Rejected, false) && s.deliveries[0].session == Open(false, [])
  {
    states := [State({}, [], map[0 := Delivery(message, Connect, Gone, 0, 0, false, false)])];
    states := Extended(states, 0, Answer(Ok));
    states := Extended(states, 0, Answer(Failure(false, Applied)));
  }
}
