/**
 The retrying queue processor: a source queue whose handler retries an operation and gives up
 messages to a dead-letter queue. Every call, microtask, timer and outcome is an event, and events
 may come in any order; one that does not apply does nothing.
 */
module RetryingQueues {
  import opened Wrappers
  import Q = Queues
  import R = Retries

  /** An object in memory. Publishers, the operation and the queue share it, and anyone may change it. */
  type Ref = int

  /**
   What is published to the dead-letter queue: a letter of this processor, labelled with the position
   of its message in the source queue and the handler call that wrote it, or somebody else's message.
   */
  datatype Entry<+M> = Recorded(position: nat, call: nat, letter: R.Letter<M>) | Foreign

  datatype Fate = Succeeded | DeadLetteredAt(index: nat)

  /** Where the current handler call is: `Settling(None)` is about to reject. */
  datatype Work<+M> =
    | Idle
    | Attempting(original: M, attempt: nat)
    | Delaying(original: M, attempt: nat)
    | Publishing(index: nat)
    | Settling(fate: Option<Fate>)

  /** `fates`, `originals` and `snapshots` are history: per acknowledged message, accepted publish call and handler call. */
  datatype System<M> = System(
    options: R.Options, source: Q.Queue<Ref>, letters: Q.Queue<Entry<M>>, contents: seq<M>, work: Work<M>,
    fates: seq<Fate>, originals: seq<M>, snapshots: seq<M>)

  datatype Event<M> =
    | NewObject(content: M)
    | Change(ref: Ref, content: M)
    | PublishSource(ref: Ref)
    | StartProcessor
    | ShutdownSource
    | ResumeSource
    | ContinueSource(prepares: bool)
    | OperationSettles(outcome: R.Outcome<()>, random: Option<real>, clock: bool)
    | DelaySettles(ok: bool)
    | PublicationSettles
    | HandlerSettles
    | FinallySource
    | PublishForeign
    | OnLetters(event: LettersEvent)

  datatype LettersEvent =
    | LettersConsume
    | LettersShutdown
    | LettersResume
    | LettersContinue
    | LettersHandled(ok: bool)
    | LettersFinally

  function LettersStep<M>(q: Q.Queue<Entry<M>>, e: LettersEvent): Q.Queue<Entry<M>>
  {
    Q.Step(q, LettersCall(e))
  }

  function LettersCall<M>(e: LettersEvent): (call: Q.Event<Entry<M>>)
    ensures !call.PublishCall?
  {
    match e
    case LettersConsume => Q.ConsumeCall
    case LettersShutdown => Q.ShutdownCall
    case LettersResume => Q.ResumeTask
    case LettersContinue => Q.ContinueTask
    case LettersHandled(ok) => Q.HandlerSettles(ok)
    case LettersFinally => Q.FinallyTask
  }

  function Initial<M>(options: R.Options, source: Q.Queue<Ref>, letters: Q.Queue<Entry<M>>): System<M>
  {
    System(options, source, letters, [], Idle, [], [], [])
  }

  /** publish refuses an argument that is not an object. */
  function Argument<M>(s: System<M>, ref: Ref): Option<Ref>
  {
    if 0 <= ref < |s.contents| then Some(ref) else None
  }

  function Publish<M>(s: System<M>, ref: Ref): System<M>
  {
    var e := Q.PublishCall(Argument(s, ref));
    var accepted := Q.Accepted(s.source, e) != [] && 0 <= ref < |s.contents|;
    s.(source := Q.Step(s.source, e), originals := if accepted then s.originals + [s.contents[ref]] else s.originals)
  }

  /** The source queue calls the handler, which runs up to its first await. */
  function Begin<M>(s: System<M>, prepares: bool): System<M>
  {
    var source := Q.Continue(s.source);
    if !source.consumer.Handling? || s.source.consumer.Handling? || !(0 <= source.consumer.current < |s.contents|) then
      s.(source := source)
    else
      var original := s.contents[source.consumer.current];
      var work := if R.ValidOptions(s.options) && prepares then Attempting(original, 1) else Settling(None);
      s.(source := source, snapshots := s.snapshots + [original], work := work)
  }

  /** The letter is published; `clock` is false when reading the time throws. */
  function GiveUp<M>(s: System<M>, classification: R.Classification, clock: bool): System<M>
    requires s.work.Attempting? && R.ValidOptions(s.options)
  {
    if !clock || s.snapshots == [] then s.(work := Settling(None))
    else
      var letter := R.Letter(s.work.original, s.work.attempt, s.options.maxAttempts.value, classification);
      var entry := Recorded(|s.source.acked|, |s.snapshots| - 1, letter);
      if Q.PublishResultOf(s.letters, Some(entry)) in {Q.Admitted, Q.Waiting} then
        s.(letters := Q.Publish(s.letters, Some(entry)), work := Publishing(|s.letters.published|))
      else s.(work := Settling(None))
  }

  function AfterOperation<M>(s: System<M>, outcome: R.Outcome<()>, random: Option<real>, clock: bool): System<M>
  {
    if !s.work.Attempting? || !R.ValidOptions(s.options) || s.work.attempt == 0 then s
    else if outcome.Returned? then s.(work := Settling(Some(Succeeded)))
    else if outcome.ThrewTransient? && s.work.attempt < s.options.maxAttempts.value then
      s.(work := if R.RetryDelay(s.options, s.work.attempt, random).Some? then Delaying(s.work.original, s.work.attempt)
                 else Settling(None))
    else GiveUp(s, R.ClassifyError(outcome), clock)
  }

  function AfterDelay<M>(s: System<M>, ok: bool): System<M>
  {
    if !s.work.Delaying? then s
    else s.(work := if ok then Attempting(s.work.original, s.work.attempt + 1) else Settling(None))
  }

  /** How many entries the dead-letter queue has ever taken in. */
  function Reached<M>(q: Q.Queue<M>): nat { |q.acked| + |q.messages| }

  /** The promise of a publish call resolves when the letter is taken in, and rejects when the queue shuts down before. */
  function AfterPublication<M>(s: System<M>): System<M>
  {
    if !s.work.Publishing? then s
    else if s.work.index < Reached(s.letters) then s.(work := Settling(Some(DeadLetteredAt(s.work.index))))
    else if !s.letters.accepting then s.(work := Settling(None))
    else s
  }

  function Settle<M>(s: System<M>): System<M>
  {
    match s.work
    case Settling(Some(fate)) =>
      s.(source := Q.HandlerDone(s.source, true), work := Idle, fates := s.fates + [fate])
    case Settling(None) => s.(source := Q.HandlerDone(s.source, false), work := Idle)
    case _ => s
  }

  function Step<M>(s: System<M>, e: Event<M>): System<M>
  {
    match e
    case NewObject(content) => s.(contents := s.contents + [content])
    case Change(ref, content) => if 0 <= ref < |s.contents| then s.(contents := s.contents[ref := content]) else s
    case PublishSource(ref) => Publish(s, ref)
    case StartProcessor => s.(source := Q.Consume(s.source))
    case ShutdownSource => s.(source := Q.Shutdown(s.source))
    case ResumeSource => s.(source := Q.Resume(s.source))
    case ContinueSource(prepares) => Begin(s, prepares)
    case OperationSettles(outcome, random, clock) => AfterOperation(s, outcome, random, clock)
    case DelaySettles(ok) => AfterDelay(s, ok)
    case PublicationSettles => AfterPublication(s)
    case HandlerSettles => Settle(s)
    case FinallySource => s.(source := Q.RunFinally(s.source))
    case PublishForeign => s.(letters := Q.Publish(s.letters, Some(Foreign)))
    case OnLetters(event) => s.(letters := LettersStep(s.letters, event))
  }

  function Exec<M>(s: System<M>, events: seq<Event<M>>): System<M>
  {
    if events == [] then s else Step(Exec(s, events[..|events| - 1]), events[|events| - 1])
  }

  // ----- The ledger: who accounts for each letter

  predicate IsLetterFor<M>(entries: seq<Entry<M>>, k: nat, position: nat)
  {
    k < |entries| && entries[k].Recorded? && entries[k].position == position
  }

  predicate Current<M>(work: Work<M>, k: nat)
  {
    (work.Publishing? && work.index == k) || work == Settling(Some(DeadLetteredAt(k)))
  }

  /** A letter belongs to the fate of its message, or to the call in progress, or was refused for good. */
  predicate Accounted<M(==)>(fates: seq<Fate>, position: nat, k: nat, reached: nat, accepting: bool, work: Work<M>)
  {
    || (!accepting && k >= reached)
    || if position < |fates| then fates[position] == DeadLetteredAt(k) else position == |fates| && Current(work, k)
  }

  predicate Ledger<M(==)>(fates: seq<Fate>, entries: seq<Entry<M>>, reached: nat, accepting: bool, work: Work<M>)
  {
    && (forall p :: 0 <= p < |fates| && fates[p].DeadLetteredAt? ==>
          fates[p].index < reached && IsLetterFor(entries, fates[p].index, p))
    && (forall k :: 0 <= k < |entries| && entries[k].Recorded? ==>
          entries[k].position <= |fates| && Accounted(fates, entries[k].position, k, reached, accepting, work))
    && (forall j, k :: 0 <= j < k < |entries| && entries[j].Recorded? && entries[k].Recorded? ==>
          entries[j].position < entries[k].position)
    && (work.Publishing? ==> IsLetterFor(entries, work.index, |fates|))
    && (work.Settling? && work.fate.Some? && work.fate.value.DeadLetteredAt? ==>
          work.fate.value.index < reached && IsLetterFor(entries, work.fate.value.index, |fates|))
  }

  /** The dead-letter queue moves on: it takes in what waits, and perhaps an entry of somebody else. */
  lemma LedgerOverLetters<M>(fates: seq<Fate>, entries: seq<Entry<M>>, reached: nat, accepting: bool, work: Work<M>,
                             entries': seq<Entry<M>>, reached': nat, accepting': bool)
    requires Ledger(fates, entries, reached, accepting, work)
    requires entries' == entries || entries' == entries + [Foreign]
    requires reached <= reached'
    requires !accepting ==> !accepting' && reached' == reached
    ensures Ledger(fates, entries', reached', accepting', work)
  {}

  /** A letter is written for the message at the head, at which none is pending. */
  lemma LedgerWrites<M>(fates: seq<Fate>, entries: seq<Entry<M>>, reached: nat, work: Work<M>, call: nat,
                        letter: R.Letter<M>, reached': nat)
    requires Ledger(fates, entries, reached, true, work) && work.Attempting? && reached <= reached'
    ensures Ledger(fates, entries + [Recorded(|fates|, call, letter)], reached', true, Publishing(|entries|))
  {}

  /** The work moves on without writing, and drops a letter only when it was refused for good. */
  lemma LedgerWorks<M>(fates: seq<Fate>, entries: seq<Entry<M>>, reached: nat, accepting: bool, work: Work<M>, work': Work<M>)
    requires Ledger(fates, entries, reached, accepting, work)
    requires work.Publishing? ==>
               work' == (if work.index < reached then Settling(Some(DeadLetteredAt(work.index))) else Settling(None))
               && (work.index < reached || !accepting)
    requires work.Settling? ==> work.fate == None && work'.Idle?
    requires !work.Publishing? ==>
               work' in {Idle, Settling(None), Settling(Some(Succeeded))} || work'.Attempting? || work'.Delaying?
    ensures Ledger(fates, entries, reached, accepting, work')
  {}

  /** The message is acknowledged with the fate of its handler call. */
  lemma LedgerSettles<M>(fates: seq<Fate>, entries: seq<Entry<M>>, reached: nat, accepting: bool, fate: Fate)
    requires Ledger<M>(fates, entries, reached, accepting, Settling(Some(fate)))
    ensures Ledger<M>(fates + [fate], entries, reached, accepting, Idle)
  {}

  // ----- The history: what each letter says

  /** A letter holds the message as the handler call that wrote it found it, and says why it was given up. */
  predicate Written<M(==)>(entry: Entry<M>, options: R.Options, starts: seq<nat>, snapshots: seq<M>)
  {
    entry.Recorded? ==>
      && entry.call < |starts| && entry.call < |snapshots|
      && starts[entry.call] == entry.position && entry.letter.originalMessage == snapshots[entry.call]
      && R.ValidOptions(options) && entry.letter.maxAttempts == options.maxAttempts.value
      && 1 <= entry.letter.attempts <= entry.letter.maxAttempts
      && (entry.letter.classification.Permanent? || entry.letter.attempts == entry.letter.maxAttempts)
  }

  /** No later handler call was for the message of this letter. */
  predicate LastCall<M>(entry: Entry<M>, starts: seq<nat>)
  {
    entry.Recorded? ==> forall i :: entry.call < i < |starts| ==> starts[i] > entry.position
  }

  predicate Letters<M(==)>(options: R.Options, fates: seq<Fate>, entries: seq<Entry<M>>, work: Work<M>,
                           starts: seq<nat>, snapshots: seq<M>)
  {
    && (forall k :: 0 <= k < |entries| ==> Written(entries[k], options, starts, snapshots))
    && (forall p :: 0 <= p < |fates| && fates[p].DeadLetteredAt? && fates[p].index < |entries| ==>
          LastCall(entries[fates[p].index], starts))
    && (forall k :: 0 <= k < |entries| && entries[k].Recorded? && Current(work, k) ==> entries[k].call == |starts| - 1)
  }

  predicate Working<M(==)>(options: R.Options, work: Work<M>, snapshots: seq<M>)
  {
    work.Attempting? || work.Delaying? ==>
      && R.ValidOptions(options) && snapshots != [] && work.original == snapshots[|snapshots| - 1]
      && 1 <= work.attempt <= options.maxAttempts.value && (work.Delaying? ==> work.attempt < options.maxAttempts.value)
  }

  predicate Objects<M>(s: System<M>)
  {
    && |s.originals| == |s.source.published|
    && forall p :: 0 <= p < |s.source.published| ==> 0 <= s.source.published[p] < |s.contents|
  }

  predicate LedgerOf<M(==)>(s: System<M>)
  {
    Ledger(s.fates, s.letters.published, Reached(s.letters), s.letters.accepting, s.work)
  }

  predicate LettersOf<M(==)>(s: System<M>)
  {
    Letters(s.options, s.fates, s.letters.published, s.work, s.source.starts, s.snapshots)
  }

  predicate Valid<M(==)>(s: System<M>)
  {
    && Q.Inv(s.source) && Q.Inv(s.letters)
    && (s.source.consumer.Handling? <==> !s.work.Idle?)
    && |s.fates| == |s.source.acked| && |s.snapshots| == |s.source.starts|
    && Objects(s) && Working(s.options, s.work, s.snapshots)
    && LedgerOf(s) && LettersOf(s)
  }

  // ----- What one step of a queue does, seen from outside

  /** Publishing, consuming, shutting down and waking leave the handler, its log and the acknowledged messages alone. */
  lemma QuietStep<M>(q: Q.Queue<M>, e: Q.Event<M>)
    requires Q.Inv(q) && !e.ContinueTask? && !e.HandlerSettles?
    ensures Q.Inv(Q.Step(q, e)) && Quiet(q, Q.Step(q, e))
    ensures Q.Step(q, e).published == q.published + Q.Accepted(q, e)
  {
    Q.StepKeeps(q, e);
    Q.StepRecords(q, e);
    if e.PublishCall? || e.ShutdownCall? {
      QuietWake(q, e);
    } else {
      QuietConsumer(q, e);
    }
  }

  predicate Quiet<M(==)>(q: Q.Queue<M>, q': Q.Queue<M>)
  {
    && q'.acked == q.acked && q'.starts == q.starts && q'.delivered == q.delivered
    && (q'.consumer.Handling? <==> q.consumer.Handling?)
  }

  lemma QuietWake<M>(q: Q.Queue<M>, e: Q.Event<M>)
    requires q.wakeSet <==> q.consumer == Q.Suspended(false)
    requires e.PublishCall? || e.ShutdownCall?
    ensures Quiet(q, Q.Step(q, e))
  {}

  lemma QuietConsumer<M>(q: Q.Queue<M>, e: Q.Event<M>)
    requires e.ConsumeCall? || e.ResumeTask? || e.FinallyTask?
    ensures Quiet(q, Q.Step(q, e))
  {}

  /** A queue takes in more and more of what was published, until it is shut down. */
  predicate Advances<M(==)>(q: Q.Queue<M>, q': Q.Queue<M>)
  {
    && Reached(q) <= Reached(q') <= |q'.published|
    && (!q.accepting ==> !q'.accepting && Reached(q') == Reached(q))
  }

  lemma AdvancesStep<M>(q: Q.Queue<M>, e: Q.Event<M>)
    requires Q.Inv(q)
    ensures Q.Inv(Q.Step(q, e)) && Advances(q, Q.Step(q, e))
    ensures Q.Step(q, e).published == q.published + Q.Accepted(q, e)
  {
    Q.StepKeeps(q, e);
    Q.StepRecords(q, e);
    if e.HandlerSettles? {
      AdvancesHandler(q, e.ok);
    } else {
      AdvancesOtherwise(q, e);
    }
  }

  lemma AdvancesOtherwise<M>(q: Q.Queue<M>, e: Q.Event<M>)
    requires !e.HandlerSettles?
    ensures var q' := Q.Step(q, e);
            Reached(q) <= Reached(q') && (!q.accepting ==> !q'.accepting && Reached(q') == Reached(q))
  {}

  lemma AdvancesHandler<M>(q: Q.Queue<M>, ok: bool)
    requires Q.Inv(q)
    ensures var q' := Q.HandlerDone(q, ok);
            Reached(q) <= Reached(q') && (!q.accepting ==> !q'.accepting && Reached(q') == Reached(q))
  {}

  /** A settled handler frees the consumer; its message is acknowledged exactly when it did not fail. */
  lemma HandlerSettled<M>(q: Q.Queue<M>, ok: bool)
    requires Q.Inv(q) && q.consumer.Handling?
    ensures var q' := Q.HandlerDone(q, ok);
            && Q.Inv(q') && !q'.consumer.Handling? && q'.starts == q.starts && q'.delivered == q.delivered
            && q'.published == q.published
            && q'.acked == (if ok then q.acked + [q.messages[0]] else q.acked)
            && (!ok ==> q'.messages == q.messages)
  {
    Q.HandlerDoneKeeps(q, ok);
    Q.HandlerDoneRecords(q, ok);
  }

  // ----- Each step keeps the invariant

  lemma LettersBegin<M>(options: R.Options, fates: seq<Fate>, entries: seq<Entry<M>>, reached: nat, accepting: bool,
                        work: Work<M>, starts: seq<nat>, snapshots: seq<M>, work': Work<M>, snapshot: M)
    requires Letters(options, fates, entries, work, starts, snapshots) && Ledger(fates, entries, reached, accepting, work)
    requires |starts| == |snapshots| && !work'.Publishing? && (work'.Settling? ==> work'.fate == None)
    ensures Letters(options, fates, entries, work', starts + [|fates|], snapshots + [snapshot])
  {
    forall p | 0 <= p < |fates| && fates[p].DeadLetteredAt? && fates[p].index < |entries|
      ensures LastCall(entries[fates[p].index], starts + [|fates|])
    {
      assert IsLetterFor(entries, fates[p].index, p);
    }
  }

  lemma LettersWorks<M>(options: R.Options, fates: seq<Fate>, entries: seq<Entry<M>>, work: Work<M>,
                        starts: seq<nat>, snapshots: seq<M>, entries': seq<Entry<M>>, work': Work<M>)
    requires Letters(options, fates, entries, work, starts, snapshots)
    requires entries' == entries || entries' == entries + [Foreign]
    requires forall k :: Current(work', k) ==> Current(work, k)
    requires forall p :: 0 <= p < |fates| && fates[p].DeadLetteredAt? ==> fates[p].index < |entries|
    ensures Letters(options, fates, entries', work', starts, snapshots)
  {}

  lemma LettersWrites<M>(options: R.Options, fates: seq<Fate>, entries: seq<Entry<M>>, work: Work<M>,
                         starts: seq<nat>, snapshots: seq<M>, entry: Entry<M>)
    requires Letters(options, fates, entries, work, starts, snapshots)
    requires forall p :: 0 <= p < |fates| && fates[p].DeadLetteredAt? ==> fates[p].index < |entries|
    requires Written(entry, options, starts, snapshots) && entry.Recorded? && entry.call == |starts| - 1
    ensures Letters(options, fates, entries + [entry], Publishing(|entries|), starts, snapshots)
  {}

  lemma LettersSettles<M>(options: R.Options, fates: seq<Fate>, entries: seq<Entry<M>>,
                          starts: seq<nat>, snapshots: seq<M>, fate: Fate)
    requires Letters(options, fates, entries, Settling(Some(fate)), starts, snapshots)
    ensures Letters(options, fates + [fate], entries, Idle, starts, snapshots)
  {
    if fate.DeadLetteredAt? && fate.index < |entries| && entries[fate.index].Recorded? {
      var work: Work<M> := Settling(Some(fate));
      assert Current(work, fate.index);
    }
  }

  /** The letters of settled messages have been published. */
  lemma FatesPoint<M>(s: System<M>)
    requires LedgerOf(s) && Q.Inv(s.letters)
    ensures forall p :: 0 <= p < |s.fates| && s.fates[p].DeadLetteredAt? ==> s.fates[p].index < |s.letters.published|
  {
    forall p | 0 <= p < |s.fates| && s.fates[p].DeadLetteredAt? ensures s.fates[p].index < |s.letters.published| {
      assert IsLetterFor(s.letters.published, s.fates[p].index, p);
    }
  }

  /** A source queue that leaves its handler and its log alone may replace the present one. */
  lemma SourceMoves<M>(s: System<M>, source: Q.Queue<Ref>, originals: seq<M>)
    requires Valid(s) && Q.Inv(source) && Quiet(s.source, source)
    requires Objects(s.(source := source, originals := originals))
    ensures Valid(s.(source := source, originals := originals))
  {}

  lemma SourceKeeps<M>(s: System<M>, e: Q.Event<Ref>)
    requires Valid(s) && !e.ContinueTask? && !e.HandlerSettles? && !e.PublishCall?
    ensures Valid(s.(source := Q.Step(s.source, e)))
  {
    QuietStep(s.source, e);
    SourceMoves(s, Q.Step(s.source, e), s.originals);
  }

  lemma PublishObjects<M>(s: System<M>, ref: Ref)
    requires Objects(s)
    requires Publish(s, ref).source.published == s.source.published + Q.Accepted(s.source, Q.PublishCall(Argument(s, ref)))
    ensures Objects(Publish(s, ref))
  {}

  lemma PublishKeeps<M>(s: System<M>, ref: Ref)
    requires Valid(s)
    ensures Valid(Publish(s, ref))
  {
    QuietStep(s.source, Q.PublishCall(Argument(s, ref)));
    PublishObjects(s, ref);
    SourceMoves(s, Publish(s, ref).source, Publish(s, ref).originals);
  }

  lemma BeginKeeps<M>(s: System<M>, prepares: bool)
    requires Valid(s)
    ensures Valid(Begin(s, prepares))
  {
    Q.ContinueKeeps(s.source);
    var s' := Begin(s, prepares);
    if s'.source.consumer.Handling? && !s.source.consumer.Handling? {
      var n := |s'.source.starts|;
      assert s'.source.delivered[n - 1] == s'.source.published[|s.source.acked|];
      LettersBegin(s.options, s.fates, s.letters.published, Reached(s.letters), s.letters.accepting, s.work,
                   s.source.starts, s.snapshots, s'.work, s'.snapshots[n - 1]);
      LedgerWorks(s.fates, s.letters.published, Reached(s.letters), s.letters.accepting, s.work, s'.work);
    }
  }

  /** Only the work changes, and it points at no letter that it did not point at before. */
  lemma WorkKeeps<M>(s: System<M>, work: Work<M>)
    requires Valid(s) && !s.work.Idle? && !work.Idle?
    requires Working(s.options, work, s.snapshots)
    requires forall k :: Current(work, k) ==> Current(s.work, k)
    requires Ledger(s.fates, s.letters.published, Reached(s.letters), s.letters.accepting, work)
    ensures Valid(s.(work := work))
  {
    FatesPoint(s);
    LettersWorks(s.options, s.fates, s.letters.published, s.work, s.source.starts, s.snapshots, s.letters.published, work);
  }

  lemma WorksOnKeeps<M>(s: System<M>, work: Work<M>)
    requires Valid(s) && (s.work.Attempting? || s.work.Delaying?) && Working(s.options, work, s.snapshots)
    requires work in {Settling(None), Settling(Some(Succeeded))} || work.Attempting? || work.Delaying?
    ensures Valid(s.(work := work))
  {
    LedgerWorks(s.fates, s.letters.published, Reached(s.letters), s.letters.accepting, s.work, work);
    WorkKeeps(s, work);
  }

  lemma AfterPublicationKeeps<M>(s: System<M>)
    requires Valid(s)
    ensures Valid(AfterPublication(s))
  {
    if s.work.Publishing? && (s.work.index < Reached(s.letters) || !s.letters.accepting) {
      var work := AfterPublication(s).work;
      LedgerWorks(s.fates, s.letters.published, Reached(s.letters), s.letters.accepting, s.work, work);
      WorkKeeps(s, work);
    }
  }

  lemma GiveUpKeeps<M>(s: System<M>, classification: R.Classification, clock: bool)
    requires Valid(s) && s.work.Attempting?
    requires classification.Permanent? || s.work.attempt == s.options.maxAttempts.value
    ensures Valid(GiveUp(s, classification, clock))
  {
    var s' := GiveUp(s, classification, clock);
    if s'.work.Publishing? {
      var letter := R.Letter(s.work.original, s.work.attempt, s.options.maxAttempts.value, classification);
      var entry := Recorded(|s.source.acked|, |s.snapshots| - 1, letter);
      AdvancesStep(s.letters, Q.PublishCall(Some(entry)));
      FatesPoint(s);
      LedgerWrites(s.fates, s.letters.published, Reached(s.letters), s.work, |s.snapshots| - 1, letter, Reached(s'.letters));
      LettersWrites(s.options, s.fates, s.letters.published, s.work, s.source.starts, s.snapshots, entry);
    } else {
      WorksOnKeeps(s, Settling(None));
    }
  }

  lemma AfterOperationKeeps<M>(s: System<M>, outcome: R.Outcome<()>, random: Option<real>, clock: bool)
    requires Valid(s)
    ensures Valid(AfterOperation(s, outcome, random, clock))
  {
    if s.work.Attempting? {
      if outcome.Returned? || (outcome.ThrewTransient? && s.work.attempt < s.options.maxAttempts.value) {
        WorksOnKeeps(s, AfterOperation(s, outcome, random, clock).work);
      } else {
        GiveUpKeeps(s, R.ClassifyError(outcome), clock);
      }
    }
  }

  lemma AfterDelayKeeps<M>(s: System<M>, ok: bool)
    requires Valid(s)
    ensures Valid(AfterDelay(s, ok))
  {
    if s.work.Delaying? {
      WorksOnKeeps(s, AfterDelay(s, ok).work);
    }
  }

  lemma SettleKeeps<M>(s: System<M>)
    requires Valid(s)
    ensures Valid(Settle(s))
  {
    if s.work.Settling? {
      HandlerSettled(s.source, s.work.fate.Some?);
      if s.work.fate.Some? {
        LedgerSettles(s.fates, s.letters.published, Reached(s.letters), s.letters.accepting, s.work.fate.value);
        LettersSettles(s.options, s.fates, s.letters.published, s.source.starts, s.snapshots, s.work.fate.value);
      } else {
        FatesPoint(s);
        LedgerWorks(s.fates, s.letters.published, Reached(s.letters), s.letters.accepting, s.work, Idle);
        LettersWorks(s.options, s.fates, s.letters.published, s.work, s.source.starts, s.snapshots, s.letters.published, Idle);
      }
    }
  }

  /** The dead-letter queue works for itself, or somebody else publishes to it. */
  lemma LettersKeep<M>(s: System<M>, e: Q.Event<Entry<M>>)
    requires Valid(s) && (e.PublishCall? ==> e.message == Some(Foreign))
    ensures Valid(s.(letters := Q.Step(s.letters, e)))
  {
    var q' := Q.Step(s.letters, e);
    AdvancesStep(s.letters, e);
    FatesPoint(s);
    LedgerOverLetters(s.fates, s.letters.published, Reached(s.letters), s.letters.accepting, s.work,
                      q'.published, Reached(q'), q'.accepting);
    LettersWorks(s.options, s.fates, s.letters.published, s.work, s.source.starts, s.snapshots, q'.published, s.work);
  }

  lemma ObjectsKeep<M>(s: System<M>, e: Event<M>)
    requires Valid(s) && (e.NewObject? || e.Change?)
    ensures Valid(Step(s, e))
  {}

  /** The calls and tasks that the source queue handles by itself. */
  predicate SourceOnly<M(==)>(e: Event<M>)
  {
    e.StartProcessor? || e.ShutdownSource? || e.ResumeSource? || e.FinallySource?
  }

  function SourceCall<M>(e: Event<M>): (call: Q.Event<Ref>)
    requires SourceOnly(e)
    ensures !call.ContinueTask? && !call.HandlerSettles? && !call.PublishCall?
  {
    match e
    case StartProcessor => Q.ConsumeCall
    case ShutdownSource => Q.ShutdownCall
    case ResumeSource => Q.ResumeTask
    case FinallySource => Q.FinallyTask
  }

  lemma SourceStep<M>(s: System<M>, e: Event<M>)
    requires SourceOnly(e)
    ensures Step(s, e) == s.(source := Q.Step(s.source, SourceCall(e)))
  {}

  lemma SourceStepKeeps<M>(s: System<M>, e: Event<M>)
    requires Valid(s) && SourceOnly(e)
    ensures Valid(Step(s, e))
  {
    SourceStep(s, e);
    SourceKeeps(s, SourceCall(e));
  }

  /** The steps of a handler call. */
  predicate OfHandler<M(==)>(e: Event<M>)
  {
    e.ContinueSource? || e.OperationSettles? || e.DelaySettles? || e.PublicationSettles? || e.HandlerSettles?
  }

  lemma HandlerStepKeeps<M>(s: System<M>, e: Event<M>)
    requires Valid(s) && OfHandler(e)
    ensures Valid(Step(s, e))
  {
    match e
    case ContinueSource(prepares) => BeginKeeps(s, prepares);
    case OperationSettles(outcome, random, clock) => AfterOperationKeeps(s, outcome, random, clock);
    case DelaySettles(ok) => AfterDelayKeeps(s, ok);
    case PublicationSettles => AfterPublicationKeeps(s);
    case HandlerSettles => SettleKeeps(s);
  }

  lemma StepKeeps<M>(s: System<M>, e: Event<M>)
    requires Valid(s)
    ensures Valid(Step(s, e))
  {
    if OfHandler(e) {
      HandlerStepKeeps(s, e);
    } else if SourceOnly(e) {
      SourceStepKeeps(s, e);
    } else {
      match e
      case PublishSource(ref) => PublishKeeps(s, ref);
      case PublishForeign => LettersKeep(s, Q.PublishCall(Some(Foreign)));
      case OnLetters(event) => LettersKeep(s, LettersCall(event));
      case _ => ObjectsKeep(s, e);
    }
  }

  lemma {:induction false} ExecKeeps<M>(s: System<M>, events: seq<Event<M>>)
    requires Valid(s)
    ensures Valid(Exec(s, events))
  {
    if events != [] {
      ExecKeeps(s, events[..|events| - 1]);
      StepKeeps(Exec(s, events[..|events| - 1]), events[|events| - 1]);
    }
  }

  // ----- Whole-run results

  /** Two queues as they are created; the configuration of the retries may be anything. */
  predicate Fresh<M(==)>(s: System<M>)
  {
    && s == Initial(s.options, Q.Empty(s.source.capacity, s.source.waits), Q.Empty(s.letters.capacity, s.letters.waits))
    && (s.source.capacity.Some? ==> s.source.capacity.value > 0)
    && (s.letters.capacity.Some? ==> s.letters.capacity.value > 0)
  }

  /** Everything the dead-letter queue has taken in, consumed or not. */
  function TakenIn<M>(q: Q.Queue<M>): seq<M> { q.acked + q.messages }

  lemma TakenInIsReached<M>(q: Q.Queue<M>)
    requires Q.Inv(q)
    ensures TakenIn(q) == q.published[..Reached(q)]
  {}

  /**
   Over any interleaving, any outcomes and any number of consumer restarts: the accepted messages are, in order: the acknowledged ones, the queued ones, the ones waiting for room
   and the ones that shutdown turned away. An acknowledged message either succeeded and has no letter,
   or has exactly one. Of the others only the head can have a letter, and only between the moment the
   dead-letter queue took it in and the acknowledgement. Letters keep the order of their messages.
   */
  lemma LetteredOnce<M>(s0: System<M>, events: seq<Event<M>>)
    requires Fresh(s0)
    ensures var s := Exec(s0, events); var letters := TakenIn(s.letters); var done := |s.fates|;
            && s.source.published == s.source.acked + s.source.messages + (s.source.waiting + s.source.rejected)
            && |s.source.acked| == done
            && (forall p, k :: 0 <= p < done ==> (IsLetterFor(letters, k, p) <==> s.fates[p] == DeadLetteredAt(k)))
            && (forall k :: IsLetterFor(letters, k, done) ==> s.source.consumer.Handling? && Current(s.work, k))
            && (forall p, k :: p > done ==> !IsLetterFor(letters, k, p))
            && (forall p, j, k :: IsLetterFor(letters, j, p) && IsLetterFor(letters, k, p) ==> j == k)
  {
    ExecKeeps(s0, events);
    LedgerConserves(Exec(s0, events));
  }

  lemma LedgerConserves<M>(s: System<M>)
    requires Valid(s)
    ensures var letters := TakenIn(s.letters); var done := |s.fates|;
            && (forall p, k :: 0 <= p < done ==> (IsLetterFor(letters, k, p) <==> s.fates[p] == DeadLetteredAt(k)))
            && (forall k :: IsLetterFor(letters, k, done) ==> Current(s.work, k))
            && (forall p, k :: p > done ==> !IsLetterFor(letters, k, p))
            && (forall p, j, k :: IsLetterFor(letters, j, p) && IsLetterFor(letters, k, p) ==> j == k)
  {
    var letters, entries, done := TakenIn(s.letters), s.letters.published, |s.fates|;
    TakenInIsReached(s.letters);
    forall p: nat, k: nat | IsLetterFor(letters, k, p)
      ensures p <= done && if p < done then s.fates[p] == DeadLetteredAt(k) else Current(s.work, k)
    {
      assert entries[k] == letters[k];
    }
    forall p | 0 <= p < done && s.fates[p].DeadLetteredAt? ensures IsLetterFor(letters, s.fates[p].index, p) {
      assert IsLetterFor(entries, s.fates[p].index, p);
    }
  }

  /**
   What a letter says is true: it holds the message as the last handler call for it found it, the
   number of attempts is within the limit, and it was given up for a permanent error or at the limit.
   */
  lemma LettersTellTheTruth<M>(s0: System<M>, events: seq<Event<M>>, p: nat)
    requires Fresh(s0)
    requires var s := Exec(s0, events); p < |s.fates| && s.fates[p].DeadLetteredAt?
    ensures var s := Exec(s0, events); var k := s.fates[p].index;
            && IsLetterFor(TakenIn(s.letters), k, p)
            && Written(TakenIn(s.letters)[k], s.options, s.source.starts, s.snapshots)
            && LastCall(TakenIn(s.letters)[k], s.source.starts)
  {
    ExecKeeps(s0, events);
    var s := Exec(s0, events);
    TakenInIsReached(s.letters);
    assert IsLetterFor(s.letters.published, s.fates[p].index, p);
  }

  /** An infrastructure failure leaves the message at the head, without a letter, for the next consumer. */
  lemma FailureLeavesTheMessage<M>(s: System<M>)
    requires Valid(s) && s.work == Settling(None)
    ensures var s' := Settle(s);
            && s'.source.messages == s.source.messages && s'.source.acked == s.source.acked && s'.fates == s.fates
            && s'.source.consumer == Q.Leaving(true)
            && (forall k :: !IsLetterFor(TakenIn(s'.letters), k, |s'.fates|))
            && (s.source.accepting ==>
                  Q.Continue(Q.Consume(Q.RunFinally(s'.source))).consumer == Q.Handling(s.source.messages[0]))
  {
    LedgerConserves(s);
    if s.source.accepting {
      Q.FailedMessageIsRedelivered(s.source);
    }
  }

  /** Once the letter is taken in, settling the handler acknowledges the message, even during shutdown. */
  lemma LetterIsAcknowledged<M>(s: System<M>)
    requires Valid(s) && s.work.Settling? && s.work.fate.Some?
    ensures var s' := Settle(s);
            && s'.fates == s.fates + [s.work.fate.value] && s'.source.acked == s.source.acked + [s.source.messages[0]]
            && s'.work.Idle? && !s'.source.consumer.Handling?
  {
    HandlerSettled(s.source, true);
  }

  // ----- A run that changes a message

  lemma Then<M>(s0: System<M>, events: seq<Event<M>>, e: Event<M>) returns (events': seq<Event<M>>)
    ensures events' == events + [e] && Exec(s0, events') == Step(Exec(s0, events), e)
  {
    events' := events + [e];
    assert events'[..|events'| - 1] == events;
  }

  /** An unbounded pair of queues and two attempts without jitter. */
  const START: System<int> :=
    Initial(R.Options(Some(2), Some(1.0), Some(0.0)), Q.Empty(None, false), Q.Empty(None, false))

  /** The source queue with one published object, which the consumer has been given `calls` times. */
  function Source(consumer: Q.Consumer<Ref>, calls: seq<nat>): Q.Queue<Ref>
  {
    Q.Queue(None, false, [0], [], true, consumer, false, [0], [], [], calls, seq(|calls|, i => 0))
  }

  lemma FirstCall() returns (events: seq<Event<int>>)
    ensures Exec(START, events)
         == System(START.options, Source(Q.Handling(0), [0]), START.letters, [1], Attempting(1, 1), [], [1], [1])
  {
    events := Then(START, [], NewObject(1));
    events := Then(START, events, PublishSource(0));
    events := Then(START, events, StartProcessor);
    events := Then(START, events, ContinueSource(true));
    assert Exec(START, events).source == Source(Q.Handling(0), [0]);
  }

  /** The operation changes the message and then fails, and so does the delay after it. */
  lemma ChangedThenFailed() returns (events: seq<Event<int>>)
    ensures Exec(START, events)
         == System(START.options, Source(Q.Leaving(true), [0]), START.letters, [2], Idle, [], [1], [1])
  {
    events := FirstCall();
    events := Then(START, events, Change(0, 2));
    events := Then(START, events, OperationSettles(R.ThrewTransient, Some(0.0), true));
    events := Then(START, events, DelaySettles(false));
    events := Then(START, events, HandlerSettles);
  }

  lemma SecondCall() returns (events: seq<Event<int>>)
    ensures Exec(START, events)
         == System(START.options, Source(Q.Handling(0), [0, 0]), START.letters, [2], Attempting(2, 1), [], [1], [1, 2])
  {
    events := ChangedThenFailed();
    events := Then(START, events, FinallySource);
    events := Then(START, events, StartProcessor);
    events := Then(START, events, ContinueSource(true));
    assert Exec(START, events).source == Source(Q.Handling(0), [0, 0]);
  }

  /** A run whose letter does not hold the published content: the second handler call copied the changed message. */
  lemma LetterMayHoldChangedMessage() returns (events: seq<Event<int>>)
    ensures Fresh(START)
    ensures var s := Exec(START, events);
            && s.fates == [DeadLetteredAt(0)] && |s.letters.published| == 1 && s.letters.published[0].Recorded?
            && s.originals == [1] && s.letters.published[0].letter.originalMessage == 2
  {
    events := SecondCall();
    events := Then(START, events, OperationSettles(R.ThrewOther, None, true));
    events := Then(START, events, PublicationSettles);
    events := Then(START, events, HandlerSettles);
  }

  // ----- One handler call is one call of executeWithRetry

  function Kind<T>(outcome: R.Outcome<T>): R.Outcome<()>
  {
    match outcome
    case Returned(_) => R.Returned(())
    case ThrewTransient => R.ThrewTransient
    case ThrewOther => R.ThrewOther
  }

  /** An attempt leaves the message as the operation leaves it, and is followed by the delay. */
  function Round<M, T>(env: R.Environment<M, T>, ref: Ref, attempt: nat): seq<Event<M>>
    requires attempt >= 1
  {
    [Change(ref, R.ContentAt(env, attempt + 1)),
     OperationSettles(Kind(R.OutcomeAt(env, attempt)), env.random(attempt), true),
     DelaySettles(env.delays(attempt))]
  }

  function Rounds<M, T>(env: R.Environment<M, T>, ref: Ref, attempts: nat): seq<Event<M>>
  {
    if attempts == 0 then [] else Rounds(env, ref, attempts - 1) + Round(env, ref, attempts)
  }

  /** The processor is about to make an attempt for the message `ref`, and has done nothing but change it. */
  predicate AtAttempt<M(==), T>(s: System<M>, s': System<M>, env: R.Environment<M, T>, ref: Ref, attempt: nat)
    requires attempt >= 1
  {
    && s'.work == Attempting(env.message, attempt) && 0 <= ref < |s'.contents| && s'.contents[ref] == R.ContentAt(env, attempt)
    && s' == s.(contents := s'.contents, work := s'.work)
  }

  lemma ExecAfter<M>(s: System<M>, a: seq<Event<M>>, e: Event<M>)
    ensures Exec(s, a + [e]) == Step(Exec(s, a), e)
  {
    assert (a + [e])[..|a|] == a;
  }

  function AfterRound<M, T>(s: System<M>, env: R.Environment<M, T>, ref: Ref, attempt: nat): System<M>
    requires attempt >= 1
  {
    var r := Round(env, ref, attempt);
    Step(Step(Step(s, r[0]), r[1]), r[2])
  }

  lemma ExecRounds<M, T>(s: System<M>, env: R.Environment<M, T>, ref: Ref, attempt: nat)
    requires attempt >= 1
    ensures Exec(s, Rounds(env, ref, attempt)) == AfterRound(Exec(s, Rounds(env, ref, attempt - 1)), env, ref, attempt)
  {
    var a, r := Rounds(env, ref, attempt - 1), Round(env, ref, attempt);
    ExecAfter(s, a, r[0]);
    ExecAfter(s, a + [r[0]], r[1]);
    ExecAfter(s, a + [r[0]] + [r[1]], r[2]);
    assert a + [r[0]] + [r[1]] + [r[2]] == a + r;
  }

  lemma RetriedRound<M, T>(s: System<M>, now: System<M>, env: R.Environment<M, T>, ref: Ref, attempt: nat)
    requires R.ValidOptions(s.options) && attempt >= 1 && AtAttempt(s, now, env, ref, attempt)
    requires R.Retried(env, s.options, attempt)
    ensures AtAttempt(s, AfterRound(now, env, ref, attempt), env, ref, attempt + 1)
  {}

  lemma {:induction false} RetriedRounds<M, T>(s: System<M>, env: R.Environment<M, T>, ref: Ref, attempts: nat)
    requires R.ValidOptions(s.options) && AtAttempt(s, s, env, ref, 1)
    requires forall a :: 1 <= a <= attempts ==> R.Retried(env, s.options, a)
    ensures AtAttempt(s, Exec(s, Rounds(env, ref, attempts)), env, ref, attempts + 1)
  {
    if attempts > 0 {
      RetriedRounds(s, env, ref, attempts - 1);
      ExecRounds(s, env, ref, attempts);
      RetriedRound(s, Exec(s, Rounds(env, ref, attempts - 1)), env, ref, attempts);
    }
  }

  /** A letter published now is admitted or put to wait. */
  predicate CanPublish<M>(q: Q.Queue<M>) { q.accepting && (!Q.Full(q) || q.waits) }

  /** What the processor goes on to do for each result of executeWithRetry. */
  predicate Continues<M(==), T>(s: System<M>, now: System<M>, env: R.Environment<M, T>, result: R.Result<T>)
  {
    match result
    case Completed(_) => now.work == Settling(Some(Succeeded)) && now.letters == s.letters
    case DeadLettered(attempts, classification) =>
      && now.work == Publishing(|s.letters.published|) && |now.letters.published| == |s.letters.published| + 1
      && var entry := now.letters.published[|s.letters.published|];
         entry.Recorded? && s.options.maxAttempts.Some?
         && entry.letter == R.Letter(env.message, attempts, s.options.maxAttempts.value, classification)
    case _ => now.work == Settling(None) && now.letters == s.letters
  }

  lemma LastRound<M, T>(s: System<M>, now: System<M>, env: R.Environment<M, T>, ref: Ref, attempt: nat)
    requires R.ValidOptions(s.options) && 1 <= attempt <= s.options.maxAttempts.value && AtAttempt(s, now, env, ref, attempt)
    requires !R.Retried(env, s.options, attempt) && s.snapshots != []
    requires env.publishes <==> CanPublish(s.letters)
    ensures Continues(s, AfterRound(now, env, ref, attempt), env, R.Verdict(env, s.options, attempt))
  {}

  lemma FinalRound<M, T>(s: System<M>, now: System<M>, end: System<M>, env: R.Environment<M, T>, ref: Ref, last: nat)
    requires R.ValidOptions(s.options) && 1 <= last <= s.options.maxAttempts.value && AtAttempt(s, now, env, ref, last)
    requires !R.Retried(env, s.options, last) && s.snapshots != []
    requires env.publishes <==> CanPublish(s.letters)
    requires now == Exec(s, Rounds(env, ref, last - 1)) && end == Exec(s, Rounds(env, ref, last))
    ensures Continues(s, end, env, R.Verdict(env, s.options, last))
  {
    ExecRounds(s, env, ref, last);
    LastRound(s, now, env, ref, last);
  }

  /**
   Driven by what its operation, delays and random source answer, a handler call makes the attempts
   of executeWithRetry and goes on as its result says: it settles, or it has published the very
   letter. `publishes` says here that the dead-letter queue does not refuse the call at once.
   */
  lemma HandlerCallRetries<M, T>(s: System<M>, env: R.Environment<M, T>, ref: Ref, last: nat)
    requires R.ValidOptions(s.options) && s.snapshots != [] && AtAttempt(s, s, env, ref, 1)
    requires 1 <= last <= s.options.maxAttempts.value && !R.Retried(env, s.options, last)
    requires forall a :: 1 <= a < last ==> R.Retried(env, s.options, a)
    requires env.publishes <==> CanPublish(s.letters)
    ensures Continues(s, Exec(s, Rounds(env, ref, last)), env, R.Verdict(env, s.options, last))
  {
    RetriedRounds(s, env, ref, last - 1);
    FinalRound(s, Exec(s, Rounds(env, ref, last - 1)), Exec(s, Rounds(env, ref, last)), env, ref, last);
  }
}
