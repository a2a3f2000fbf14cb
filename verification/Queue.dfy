/**
 The in-memory queue. The code between two awaits is one atomic segment; each segment is a function
 on queue values here, and a method of the class `InMemoryQueue` computes it in place.
 */
module Queues {
  import opened Wrappers

  /**
   The consumer loop: suspended in `nextMessage` until woken; given a message that it has not looked
   at yet; awaiting its handler; or settled, with its `finally` still to run.
   */
  datatype Consumer<M> =
    | NoConsumer
    | Suspended(woken: bool)
    | Fetched(message: Option<M>)
    | Handling(current: M)
    | Leaving(failed: bool)

  /**
   `wakeSet` says that `wakeConsumer` holds a callback. The remaining fields are history: accepted
   publish calls, acknowledged messages, publishers rejected by shutdown, and for every handler call
   the position of its message and the message itself.
   */
  datatype Queue<M> = Queue(
    capacity: Option<nat>, waits: bool,
    messages: seq<M>, waiting: seq<M>, accepting: bool, consumer: Consumer<M>, wakeSet: bool,
    published: seq<M>, acked: seq<M>, rejected: seq<M>, starts: seq<nat>, delivered: seq<M>)

  datatype PublishResult = Admitted | Waiting | QueueShutdown | InvalidMessage | CapacityExceeded

  datatype ConsumeResult = Consuming | ConsumeShutdown | AlreadyConsuming

  function Empty<M>(capacity: Option<nat>, waits: bool): Queue<M>
  {
    Queue(capacity, waits, [], [], true, NoConsumer, false, [], [], [], [], [])
  }

  predicate Full<M>(q: Queue<M>) { q.capacity.Some? && |q.messages| >= q.capacity.value }

  function Wake<M>(q: Queue<M>): Queue<M>
  {
    if q.wakeSet then q.(wakeSet := false, consumer := Suspended(true)) else q
  }

  function PublishResultOf<M>(q: Queue<M>, message: Option<M>): PublishResult
  {
    if !q.accepting then QueueShutdown
    else if message.None? then InvalidMessage
    else if !Full(q) then Admitted
    else if q.waits then Waiting else CapacityExceeded
  }

  /** `None` stands for an argument that is not an object. */
  function Publish<M>(q: Queue<M>, message: Option<M>): Queue<M>
  {
    match PublishResultOf(q, message)
    case Admitted =>
      Wake(q.(messages := q.messages + [message.value], published := q.published + [message.value]))
    case Waiting => q.(waiting := q.waiting + [message.value], published := q.published + [message.value])
    case _ => q
  }

  /** How many waiting publishers there is room for. */
  function Room<M>(q: Queue<M>): nat
  {
    if !q.accepting then 0
    else if q.capacity.None? then |q.waiting|
    else if |q.messages| >= q.capacity.value then 0
    else if |q.waiting| <= q.capacity.value - |q.messages| then |q.waiting|
    else q.capacity.value - |q.messages|
  }

  function Admit<M>(q: Queue<M>): Queue<M>
  {
    var n := Room(q);
    var admitted := q.(messages := q.messages + q.waiting[..n], waiting := q.waiting[n..]);
    if n > 0 then Wake(admitted) else admitted
  }

  /** A round of the loop in `nextMessage`. */
  function NextMessage<M>(q: Queue<M>): Queue<M>
  {
    if q.accepting && q.messages == [] then q.(consumer := Suspended(false), wakeSet := true)
    else q.(consumer := Fetched(if q.accepting then Some(q.messages[0]) else None))
  }

  /** The head of the loop in `runConsumer`. */
  function LoopHead<M>(q: Queue<M>): Queue<M>
  {
    if q.accepting then NextMessage(q) else q.(consumer := Leaving(false))
  }

  function ConsumeResultOf<M>(q: Queue<M>): ConsumeResult
  {
    if !q.accepting then ConsumeShutdown else if !q.consumer.NoConsumer? then AlreadyConsuming else Consuming
  }

  function Consume<M>(q: Queue<M>): Queue<M>
  {
    if ConsumeResultOf(q).Consuming? then LoopHead(q) else q
  }

  /** The microtask queued when the consumer's wake promise resolves. */
  function Resume<M>(q: Queue<M>): Queue<M>
  {
    if q.consumer == Suspended(true) then NextMessage(q) else q
  }

  /** The microtask queued when `nextMessage` answers: the handler is called, or the loop ends. */
  function Continue<M>(q: Queue<M>): Queue<M>
  {
    match q.consumer
    case Fetched(message) =>
      if !q.accepting || message.None? then q.(consumer := Leaving(false))
      else q.(consumer := Handling(message.value), starts := q.starts + [|q.acked|],
              delivered := q.delivered + [message.value])
    case _ => q
  }

  function HandlerDone<M>(q: Queue<M>, ok: bool): Queue<M>
  {
    if !q.consumer.Handling? then q
    else if !ok then q.(consumer := Leaving(true))
    else if q.messages == [] then LoopHead(Admit(q))
    else LoopHead(Admit(q.(messages := q.messages[1..], acked := q.acked + [q.messages[0]])))
  }

  function RunFinally<M>(q: Queue<M>): Queue<M>
  {
    if q.consumer.Leaving? then q.(consumer := NoConsumer) else q
  }

  function Shutdown<M>(q: Queue<M>): Queue<M>
  {
    Wake(q.(accepting := false)).(waiting := [], rejected := q.rejected + q.waiting)
  }

  // ----- Runs

  datatype Event<M> =
    | PublishCall(message: Option<M>)
    | ConsumeCall
    | ShutdownCall
    | ResumeTask
    | ContinueTask
    | HandlerSettles(ok: bool)
    | FinallyTask

  function Step<M>(q: Queue<M>, e: Event<M>): Queue<M>
  {
    match e
    case PublishCall(message) => Publish(q, message)
    case ConsumeCall => Consume(q)
    case ShutdownCall => Shutdown(q)
    case ResumeTask => Resume(q)
    case ContinueTask => Continue(q)
    case HandlerSettles(ok) => HandlerDone(q, ok)
    case FinallyTask => RunFinally(q)
  }

  /** Any interleaving of calls and microtasks; one that does not apply does nothing. */
  function Exec<M>(q: Queue<M>, events: seq<Event<M>>): Queue<M>
  {
    if events == [] then q else Step(Exec(q, events[..|events| - 1]), events[|events| - 1])
  }

  // ----- The invariant

  /** Positions start at 0 and each call repeats the last position or takes the next one. */
  predicate Contiguous(starts: seq<nat>)
  {
    && (starts != [] ==> starts[0] == 0)
    && forall i :: 0 < i < |starts| ==> starts[i - 1] <= starts[i] <= starts[i - 1] + 1
  }

  predicate Inv<M(==)>(q: Queue<M>)
  {
    && (q.capacity.Some? ==> 0 < q.capacity.value && |q.messages| <= q.capacity.value)
    && (q.waiting != [] ==> q.accepting && q.waits && Full(q))
    && (q.wakeSet <==> q.consumer == Suspended(false))
    && (q.consumer == Suspended(false) ==> q.accepting && q.messages == [])
    && (q.consumer.Fetched? ==>
          if q.consumer.message.Some? then q.messages != [] && q.consumer.message.value == q.messages[0] else !q.accepting)
    && (q.consumer.Handling? ==> q.messages != [] && q.consumer.current == q.messages[0])
    && (q.rejected != [] ==> !q.accepting)
    && q.published == q.acked + q.messages + (q.waiting + q.rejected)
    && StartsOk(q)
  }

  predicate StartsOk<M(==)>(q: Queue<M>)
  {
    && Contiguous(q.starts)
    && |q.delivered| == |q.starts|
    && (forall i :: 0 <= i < |q.starts| ==> q.starts[i] < |q.published| && q.delivered[i] == q.published[q.starts[i]])
    && (if q.starts == [] then q.acked == [] else |q.acked| - 1 <= q.starts[|q.starts| - 1] <= |q.acked|)
    && (q.consumer.Handling? ==> q.starts != [] && q.starts[|q.starts| - 1] == |q.acked|)
  }

  /** The handler log stays right when publish calls are added and the consumer is not handling. */
  lemma StartsStay<M>(q: Queue<M>, q': Queue<M>)
    requires StartsOk(q)
    requires q'.starts == q.starts && q'.delivered == q.delivered && q'.acked == q.acked && q.published <= q'.published
    requires q'.consumer.Handling? ==> q.consumer.Handling?
    ensures StartsOk(q')
  {}

  /** A message goes to the end of the queue and wakes a suspended consumer. */
  lemma AdmittedKeeps<M>(q: Queue<M>, message: Option<M>)
    requires Inv(q) && PublishResultOf(q, message).Admitted?
    ensures Inv(Publish(q, message))
  {
    var q' := Publish(q, message);
    StartsStay(q, q');
    assert q.waiting + q.rejected == [];
    assert q'.published == q.acked + (q.messages + [message.value]) + [];
  }

  lemma WaitingKeeps<M>(q: Queue<M>, message: Option<M>)
    requires Inv(q) && PublishResultOf(q, message).Waiting?
    ensures Inv(Publish(q, message))
  {
    var q' := Publish(q, message);
    StartsStay(q, q');
    assert q'.published == q.acked + q.messages + (q.waiting + [message.value] + q.rejected);
  }

  lemma PublishKeeps<M>(q: Queue<M>, message: Option<M>)
    requires Inv(q)
    ensures Inv(Publish(q, message))
  {
    match PublishResultOf(q, message)
    case Admitted => AdmittedKeeps(q, message);
    case Waiting => WaitingKeeps(q, message);
    case _ =>
  }

  /** The invariant after a message has been acknowledged and before waiting publishers are admitted. */
  predicate Acknowledged<M(==)>(q: Queue<M>)
  {
    && q.consumer.Handling? && !q.wakeSet
    && (q.capacity.Some? ==> 0 < q.capacity.value && |q.messages| < q.capacity.value)
    && (q.waiting != [] ==> q.accepting && q.waits && q.capacity.Some? && |q.messages| == q.capacity.value - 1)
    && (q.rejected != [] ==> !q.accepting)
    && q.published == q.acked + q.messages + (q.waiting + q.rejected)
    && StartsOk(q.(consumer := NoConsumer))
  }

  lemma Acknowledges<M>(q: Queue<M>)
    requires Inv(q) && q.consumer.Handling?
    ensures Acknowledged(q.(messages := q.messages[1..], acked := q.acked + [q.messages[0]]))
  {
    assert q.acked + q.messages == q.acked + [q.messages[0]] + q.messages[1..];
  }

  /** At most one publisher is admitted, and the queue is full again if any still waits. */
  lemma AdmitsOne<M>(q: Queue<M>)
    requires Acknowledged(q)
    ensures var q' := Admit(q);
            && q' == q.(messages := q'.messages, waiting := q'.waiting)
            && (q.capacity.Some? ==> |q'.messages| <= q.capacity.value)
            && (q'.waiting != [] ==> q.waits && Full(q'))
            && q'.messages + q'.waiting == q.messages + q.waiting
  {}

  lemma LoopHeadKeeps<M>(q: Queue<M>)
    requires Inv(q.(consumer := NoConsumer)) && !q.wakeSet
    ensures Inv(LoopHead(q)) && Inv(NextMessage(q))
  {
    var r := q.(consumer := NoConsumer);
    StartsStay(r, LoopHead(q));
    StartsStay(r, NextMessage(q));
  }

  lemma SameParts<M>(a: seq<M>, m: seq<M>, w: seq<M>, r: seq<M>, m': seq<M>, w': seq<M>)
    requires m + w == m' + w'
    ensures a + m + (w + r) == a + m' + (w' + r)
  {
    assert a + m + (w + r) == a + (m + w) + r;
    assert a + m' + (w' + r) == a + (m' + w') + r;
  }

  lemma AdmitKeeps<M>(q: Queue<M>)
    requires Acknowledged(q)
    ensures Inv(Admit(q).(consumer := NoConsumer))
  {
    var q' := Admit(q);
    AdmitsOne(q);
    SameParts(q.acked, q.messages, q.waiting, q.rejected, q'.messages, q'.waiting);
    StartsStay(q.(consumer := NoConsumer), q'.(consumer := NoConsumer));
  }

  lemma HandlerDoneKeeps<M>(q: Queue<M>, ok: bool)
    requires Inv(q) && q.consumer.Handling?
    ensures Inv(HandlerDone(q, ok))
  {
    if ok {
      var taken := q.(messages := q.messages[1..], acked := q.acked + [q.messages[0]]);
      Acknowledges(q);
      AdmitKeeps(taken);
      LoopHeadKeeps(Admit(taken));
    } else {
      StartsStay(q, HandlerDone(q, ok));
    }
  }

  /** The positions of the handler calls stay contiguous when the first message not yet acknowledged is next. */
  lemma ContiguousNext(starts: seq<nat>, next: nat)
    requires Contiguous(starts)
    requires if starts == [] then next == 0 else next - 1 <= starts[|starts| - 1] <= next
    ensures Contiguous(starts + [next])
  {}

  lemma StartsNext<M>(q: Queue<M>, q': Queue<M>, message: M)
    requires StartsOk(q) && |q.acked| < |q.published| && q.published[|q.acked|] == message
    requires q'.starts == q.starts + [|q.acked|] && q'.delivered == q.delivered + [message]
    requires q'.acked == q.acked && q'.published == q.published
    ensures StartsOk(q')
  {
    ContiguousNext(q.starts, |q.acked|);
  }

  lemma ContinueKeeps<M>(q: Queue<M>)
    requires Inv(q)
    ensures Inv(Continue(q))
  {
    var q' := Continue(q);
    if q.consumer.Fetched? && q'.consumer.Handling? {
      assert q.published[|q.acked|] == q.messages[0];
      StartsNext(q, q', q.messages[0]);
    } else {
      StartsStay(q, q');
    }
  }

  lemma ShutdownKeeps<M>(q: Queue<M>)
    requires Inv(q)
    ensures Inv(Shutdown(q))
  {
    StartsStay(q, Shutdown(q));
    if q.rejected != [] {
      assert q.rejected + q.waiting == q.waiting + q.rejected;
    }
    assert [] + (q.rejected + q.waiting) == q.waiting + q.rejected;
  }

  lemma StepKeeps<M>(q: Queue<M>, e: Event<M>)
    requires Inv(q)
    ensures Inv(Step(q, e))
  {
    match e
    case PublishCall(message) => PublishKeeps(q, message);
    case ConsumeCall => if ConsumeResultOf(q).Consuming? { LoopHeadKeeps(q); }
    case ShutdownCall => ShutdownKeeps(q);
    case ResumeTask => ResumeKeeps(q);
    case ContinueTask => ContinueKeeps(q);
    case HandlerSettles(ok) => if q.consumer.Handling? { HandlerDoneKeeps(q, ok); }
    case FinallyTask => StartsStay(q, RunFinally(q));
  }

  lemma ResumeKeeps<M>(q: Queue<M>)
    requires Inv(q)
    ensures Inv(Resume(q))
  {
    if q.consumer == Suspended(true) {
      StartsStay(q, q.(consumer := NoConsumer));
      LoopHeadKeeps(q);
    }
  }

  // ----- Whole-run results

  lemma {:induction false} ExecKeeps<M>(q: Queue<M>, events: seq<Event<M>>)
    requires Inv(q)
    ensures Inv(Exec(q, events))
  {
    if events != [] {
      ExecKeeps(q, events[..|events| - 1]);
      StepKeeps(Exec(q, events[..|events| - 1]), events[|events| - 1]);
    }
  }

  /** The payloads of the publish calls that were admitted or put to wait, in call order. */
  function AcceptedCalls<M>(q: Queue<M>, events: seq<Event<M>>): seq<M>
  {
    if events == [] then [] else
    var before, e := events[..|events| - 1], events[|events| - 1];
    AcceptedCalls(q, before) + Accepted(Exec(q, before), e)
  }

  /** What one event adds to the accepted publish calls. */
  function Accepted<M>(q: Queue<M>, e: Event<M>): seq<M>
  {
    if e.PublishCall? && PublishResultOf(q, e.message) in {Admitted, Waiting} then [e.message.value] else []
  }

  /** No step but an accepted publish call touches the history of accepted calls, and none the configuration. */
  lemma StepRecords<M>(q: Queue<M>, e: Event<M>)
    ensures Step(q, e).published == q.published + Accepted(q, e)
    ensures Step(q, e).capacity == q.capacity && Step(q, e).waits == q.waits
  {
    if e.HandlerSettles? {
      HandlerDoneRecords(q, e.ok);
    }
  }

  lemma HandlerDoneRecords<M>(q: Queue<M>, ok: bool)
    ensures var q' := HandlerDone(q, ok); q'.published == q.published && q'.capacity == q.capacity && q'.waits == q.waits
  {
    if q.consumer.Handling? && ok {
      var taken := if q.messages == [] then q else q.(messages := q.messages[1..], acked := q.acked + [q.messages[0]]);
      AdmitRecords(taken);
      LoopHeadRecords(Admit(taken));
    }
  }

  lemma AdmitRecords<M>(q: Queue<M>)
    ensures var q' := Admit(q); q'.published == q.published && q'.capacity == q.capacity && q'.waits == q.waits
  {}

  lemma LoopHeadRecords<M>(q: Queue<M>)
    ensures var q' := LoopHead(q); q'.published == q.published && q'.capacity == q.capacity && q'.waits == q.waits
  {}

  lemma {:induction false} PublishedAreAccepted<M>(q: Queue<M>, events: seq<Event<M>>)
    ensures Exec(q, events).published == q.published + AcceptedCalls(q, events)
    ensures Exec(q, events).capacity == q.capacity && Exec(q, events).waits == q.waits
  {
    if events != [] {
      var before := events[..|events| - 1];
      PublishedAreAccepted(q, before);
      StepRecords(Exec(q, before), events[|events| - 1]);
    }
  }

  /**
   First in, first out, over any interleaving of publishers, consumers, handler failures and
   shutdown: what has been acknowledged, is queued, waits, or was turned away by shutdown is, in
   this order, exactly the accepted publish calls; and handlers are called on that sequence in
   order, each position one or more times in a row and none skipped.
   */
  lemma FirstInFirstOut<M>(capacity: Option<nat>, waits: bool, events: seq<Event<M>>)
    requires capacity.Some? ==> capacity.value > 0
    ensures var q0 := Empty(capacity, waits); var q, calls := Exec(q0, events), AcceptedCalls(q0, events);
            && calls == q.acked + q.messages + (q.waiting + q.rejected)
            && (q.accepting ==> calls == q.acked + q.messages + q.waiting)
            && Contiguous(q.starts) && |q.delivered| == |q.starts|
            && (forall i :: 0 <= i < |q.starts| ==> q.starts[i] < |calls| && q.delivered[i] == calls[q.starts[i]])
            && (if q.starts == [] then q.acked == [] else |q.acked| - 1 <= q.starts[|q.starts| - 1] <= |q.acked|)
  {
    ExecKeeps(Empty(capacity, waits), events);
    PublishedAreAccepted(Empty(capacity, waits), events);
  }

  /**
   Between any two microtasks: the depth is within the capacity, publishers wait only while the
   queue is full and accepting, and a consumer that nothing will wake has nothing to consume.
   */
  lemma BoundedAndAwake<M>(capacity: Option<nat>, waits: bool, events: seq<Event<M>>)
    requires capacity.Some? ==> capacity.value > 0
    ensures var q := Exec(Empty(capacity, waits), events);
            && (capacity.Some? ==> |q.messages| <= capacity.value)
            && (q.waiting != [] ==> waits && q.accepting && capacity.Some? && |q.messages| == capacity.value)
            && (q.consumer == Suspended(false) ==> q.accepting && q.messages == [] && q.wakeSet)
  {
    ExecKeeps(Empty(capacity, waits), events);
    PublishedAreAccepted(Empty(capacity, waits), events);
  }

  /** A publish call is refused only after shutdown, for an argument that is no object, or on a queue that is exactly full. */
  lemma PublishAnswers<M>(q: Queue<M>, message: Option<M>)
    requires Inv(q)
    ensures var q' := Publish(q, message);
            match PublishResultOf(q, message)
            case Admitted =>
              && q.accepting && message.Some? && (q.capacity.Some? ==> |q.messages| < q.capacity.value)
              && q'.messages == q.messages + [message.value] && q'.waiting == q.waiting == []
            case Waiting =>
              && q.accepting && message.Some? && q.capacity.Some? && |q.messages| == q.capacity.value && q.waits
              && q'.messages == q.messages && q'.waiting == q.waiting + [message.value]
            case CapacityExceeded =>
              q.accepting && message.Some? && q.capacity.Some? && |q.messages| == q.capacity.value && !q.waits && q' == q
            case InvalidMessage => q.accepting && message.None? && q' == q
            case QueueShutdown => !q.accepting && q' == q
  {}

  /** A second consumer is refused, and so is any after shutdown; the first one gets to the oldest message or waits for one. */
  lemma ConsumeAnswers<M>(q: Queue<M>)
    requires Inv(q)
    ensures var q' := Consume(q);
            match ConsumeResultOf(q)
            case ConsumeShutdown => !q.accepting && q' == q
            case AlreadyConsuming => q.accepting && q.consumer != NoConsumer && q' == q
            case Consuming =>
              && q.accepting && q.consumer == NoConsumer && q'.messages == q.messages
              && q'.consumer == if q.messages == [] then Suspended(false) else Fetched(Some(q.messages[0]))
  {}

  /** Once messages are there, a consumer that has not settled reaches its handler by its own microtasks. */
  lemma ConsumerDelivers<M>(q: Queue<M>)
    requires Inv(q) && q.accepting && q.messages != [] && (q.consumer.Suspended? || q.consumer.Fetched?)
    ensures Continue(Resume(q)).consumer == Handling(q.messages[0])
  {}

  /** After a failed handler the next consumer is given the same message again. */
  lemma FailedMessageIsRedelivered<M>(q: Queue<M>)
    requires Inv(q) && q.accepting && q.consumer.Handling?
    ensures Continue(Consume(RunFinally(HandlerDone(q, false)))).consumer == q.consumer
    ensures HandlerDone(q, false).messages == q.messages && HandlerDone(q, false).acked == q.acked
  {}

  /** What no step of a queue that has been shut down changes. */
  predicate Stopped<M(==)>(q: Queue<M>, q': Queue<M>)
  {
    && !q'.accepting && q'.waiting == q.waiting && q'.rejected == q.rejected
    && q'.starts == q.starts && q'.published == q.published
  }

  lemma StoppedStep<M>(q: Queue<M>, e: Event<M>)
    requires !q.accepting && q.waiting == []
    ensures Stopped(q, Step(q, e))
  {
    assert q.rejected + [] == q.rejected;
  }

  lemma {:induction false} StoppedRun<M>(q: Queue<M>, events: seq<Event<M>>)
    requires !q.accepting && q.waiting == []
    ensures Stopped(q, Exec(q, events))
  {
    if events != [] {
      StoppedRun(q, events[..|events| - 1]);
      StoppedStep(Exec(q, events[..|events| - 1]), events[|events| - 1]);
    }
  }

  /** After shutdown has begun no handler starts, nothing more is accepted, and nobody waits. */
  lemma ShutdownIsFinal<M>(q: Queue<M>, events: seq<Event<M>>)
    ensures var q' := Exec(Shutdown(q), events);
            && !q'.accepting && q'.waiting == [] && q'.starts == q.starts && q'.published == q.published
            && q'.rejected == q.rejected + q.waiting
  {
    StoppedRun(Shutdown(q), events);
  }

  // ----- The queue in place

  class InMemoryQueue<M(==)> {
    const capacity: Option<nat>
    const waits: bool

    var messages: seq<M>
    var waitingPublishers: seq<M>
    var acceptingWork: bool
    var consumer: Consumer<M>
    var wakeConsumer: bool

    ghost var published: seq<M>
    ghost var acked: seq<M>
    ghost var rejected: seq<M>
    ghost var starts: seq<nat>
    ghost var delivered: seq<M>

    ghost function State(): Queue<M>
      reads this
    {
      Queue(capacity, waits, messages, waitingPublishers, acceptingWork, consumer, wakeConsumer,
            published, acked, rejected, starts, delivered)
    }

    ghost predicate Valid()
      reads this
    {
      Inv(State())
    }

    constructor (capacity: Option<nat>, waits: bool)
      requires capacity.Some? ==> capacity.value > 0
      ensures Valid() && State() == Empty(capacity, waits)
    {
      this.capacity, this.waits := capacity, waits;
      messages, waitingPublishers, acceptingWork := [], [], true;
      consumer, wakeConsumer := NoConsumer, false;
      published, acked, rejected, starts, delivered := [], [], [], [], [];
    }

    method DoWake()
      modifies this`consumer, this`wakeConsumer
      ensures State() == Wake(old(State()))
    {
      if wakeConsumer {
        consumer := Suspended(true);
        wakeConsumer := false;
      }
    }

    method AdmitWaitingPublishers()
      requires Acknowledged(State())
      modifies this`messages, this`waitingPublishers, this`consumer, this`wakeConsumer
      ensures State() == Admit(old(State()))
    {
      ghost var n := Room(State());
      ghost var i := 0;
      while acceptingWork && (capacity.None? || |messages| < capacity.value) && |waitingPublishers| > 0
        invariant 0 <= i <= n
        invariant messages == old(messages) + old(waitingPublishers)[..i] && waitingPublishers == old(waitingPublishers)[i..]
        invariant !wakeConsumer && consumer == old(consumer)
        decreases |waitingPublishers|
      {
        messages := messages + [waitingPublishers[0]];
        waitingPublishers := waitingPublishers[1..];
        DoWake();
        i := i + 1;
      }
      assert i == n;
    }

    method Enqueue(message: M)
      modifies this`messages, this`consumer, this`wakeConsumer, this`published
      ensures var was := old(State());
              State() == Wake(was.(messages := was.messages + [message], published := was.published + [message]))
    {
      messages, published := messages + [message], published + [message];
      DoWake();
    }

    method PublishMessage(message: Option<M>) returns (result: PublishResult)
      requires Valid()
      modifies this`messages, this`waitingPublishers, this`consumer, this`wakeConsumer, this`published
      ensures Valid() && State() == Publish(old(State()), message) && result == PublishResultOf(old(State()), message)
    {
      PublishKeeps(State(), message);
      if !acceptingWork {
        return QueueShutdown;
      }
      if message.None? {
        return InvalidMessage;
      }
      if capacity.Some? && |messages| >= capacity.value {
        if !waits {
          return CapacityExceeded;
        }
        waitingPublishers, published := waitingPublishers + [message.value], published + [message.value];
        return Waiting;
      }
      Enqueue(message.value);
      result := Admitted;
    }

    method FetchNext()
      modifies this`consumer, this`wakeConsumer
      ensures State() == NextMessage(old(State()))
    {
      if acceptingWork && |messages| == 0 {
        consumer, wakeConsumer := Suspended(false), true;
      } else {
        consumer := Fetched(if acceptingWork then Some(messages[0]) else None);
      }
    }

    method LoopOrLeave()
      modifies this`consumer, this`wakeConsumer
      ensures State() == LoopHead(old(State()))
    {
      if acceptingWork {
        FetchNext();
      } else {
        consumer := Leaving(false);
      }
    }

    method StartConsumer() returns (result: ConsumeResult)
      requires Valid()
      modifies this
      ensures Valid() && State() == Consume(old(State())) && result == ConsumeResultOf(old(State()))
    {
      StepKeeps(State(), ConsumeCall);
      if !acceptingWork {
        return ConsumeShutdown;
      }
      if !consumer.NoConsumer? {
        return AlreadyConsuming;
      }
      LoopOrLeave();
      result := Consuming;
    }

    method ResumeConsumer()
      requires Valid() && consumer == Suspended(true)
      modifies this
      ensures Valid() && State() == Resume(old(State()))
    {
      ResumeKeeps(State());
      FetchNext();
    }

    /** Answers the message that the handler is called with, if it is called. */
    method ContinueConsumer() returns (message: Option<M>)
      requires Valid() && consumer.Fetched?
      modifies this`consumer, this`starts, this`delivered
      ensures Valid() && State() == Continue(old(State()))
      ensures message == if consumer.Handling? then Some(consumer.current) else None
    {
      ContinueKeeps(State());
      if !acceptingWork || consumer.message.None? {
        consumer := Leaving(false);
        return None;
      }
      message := consumer.message;
      CallHandler(message.value);
    }

    method CallHandler(message: M)
      modifies this`consumer, this`starts, this`delivered
      ensures var was := old(State());
              State() == was.(consumer := Handling(message), starts := was.starts + [|was.acked|],
                              delivered := was.delivered + [message])
    {
      starts, delivered := starts + [|acked|], delivered + [message];
      consumer := Handling(message);
    }

    method SettleHandler(ok: bool)
      requires Valid() && consumer.Handling?
      modifies this
      ensures Valid() && State() == HandlerDone(old(State()), ok)
    {
      HandlerDoneKeeps(State(), ok);
      if !ok {
        consumer := Leaving(true);
        return;
      }
      Acknowledges(State());
      acked := acked + [messages[0]];
      messages := messages[1..];
      AdmitWaitingPublishers();
      LoopOrLeave();
    }

    method FinishConsumer()
      requires Valid() && consumer.Leaving?
      modifies this
      ensures Valid() && State() == RunFinally(old(State()))
    {
      StepKeeps(State(), FinallyTask);
      consumer := NoConsumer;
    }

    method RejectWaitingPublishers()
      modifies this`waitingPublishers, this`rejected
      ensures waitingPublishers == [] && rejected == old(rejected) + old(waitingPublishers)
    {
      while |waitingPublishers| > 0
        invariant rejected + waitingPublishers == old(rejected) + old(waitingPublishers)
        decreases |waitingPublishers|
      {
        rejected, waitingPublishers := rejected + [waitingPublishers[0]], waitingPublishers[1..];
      }
    }

    method BeginShutdown()
      requires Valid()
      modifies this`acceptingWork, this`consumer, this`wakeConsumer, this`waitingPublishers, this`rejected
      ensures Valid() && State() == Shutdown(old(State()))
    {
      ShutdownKeeps(State());
      acceptingWork := false;
      DoWake();
      RejectWaitingPublishers();
    }
  }

  /** A capacity as it is passed: infinite, an integer, or anything else. */
  datatype Bound = Unbounded | Bounded(n: int) | NotAnInteger

  datatype Strategy = Reject | Wait | UnknownStrategy

  datatype Creation<M(==)> = Created(queue: InMemoryQueue<M>) | InvalidCapacity | InvalidOverflowStrategy

  /** createInMemoryQueue: the capacity is checked before the overflow strategy. */
  method CreateInMemoryQueue<M(==)>(bound: Bound, strategy: Strategy) returns (r: Creation<M>)
    ensures r.InvalidCapacity? <==> bound.NotAnInteger? || (bound.Bounded? && bound.n <= 0)
    ensures r.InvalidOverflowStrategy? <==> strategy.UnknownStrategy? && !r.InvalidCapacity?
    ensures r.Created? ==>
              && fresh(r.queue) && r.queue.Valid()
              && r.queue.State() == Empty(if bound.Bounded? then Some(bound.n) else None, strategy.Wait?)
  {
    if bound.NotAnInteger? || (bound.Bounded? && bound.n <= 0) {
      return InvalidCapacity;
    }
    if strategy.UnknownStrategy? {
      return InvalidOverflowStrategy;
    }
    var queue := new InMemoryQueue<M>(if bound.Bounded? then Some(bound.n) else None, strategy.Wait?);
    r := Created(queue);
  }
}
