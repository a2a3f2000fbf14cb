/** Whole runs of the retrying queue processor: where each letter and each success comes from. */
module RetryingRuns {
  import opened Wrappers
  import opened RetryingQueues
  import Q = Queues
  import R = Retries

  // ----- What a step adds to the history

  predicate Grows<M(==)>(s: System<M>, s': System<M>)
  {
    && s.source.published <= s'.source.published && s.originals <= s'.originals
    && s.source.starts <= s'.source.starts && s.snapshots <= s'.snapshots && s.fates <= s'.fates
  }

  /** Only a publish call on the source adds to the published messages, with the object's present content. */
  predicate Publishes<M(==)>(s: System<M>, e: Event<M>, s': System<M>)
  {
    if s'.source.published == s.source.published then s'.originals == s.originals
    else
      && e.PublishSource? && 0 <= e.ref < |s.contents|
      && s'.source.published == s.source.published + [e.ref] && s'.originals == s.originals + [s.contents[e.ref]]
  }

  /** Only the source's own microtask starts a handler call, for the next message, and notes its present content. */
  predicate Starts<M(==)>(s: System<M>, e: Event<M>, s': System<M>)
  {
    if s'.source.starts == s.source.starts then s'.snapshots == s.snapshots
    else
      var p := |s.source.acked|;
      && e.ContinueSource? && s.work.Idle? && p < |s.source.published| && 0 <= s.source.published[p] < |s.contents|
      && s'.source.starts == s.source.starts + [p] && s'.snapshots == s.snapshots + [s.contents[s.source.published[p]]]
  }

  /** Only a settled handler call gives a message its fate. */
  predicate Decides<M(==)>(s: System<M>, e: Event<M>, s': System<M>)
  {
    if s'.fates == s.fates then true
    else e.HandlerSettles? && s.work.Settling? && s.work.fate.Some? && s'.fates == s.fates + [s.work.fate.value]
         && s'.source.starts == s.source.starts
  }

  predicate Records<M(==)>(s: System<M>, e: Event<M>, s': System<M>)
  {
    Publishes(s, e, s') && Starts(s, e, s') && Decides(s, e, s')
  }

  lemma BeginRecords<M>(s: System<M>, prepares: bool)
    requires Valid(s)
    ensures Records(s, ContinueSource(prepares), Begin(s, prepares))
  {
    var s' := Begin(s, prepares);
    Q.ContinueKeeps(s.source);
    if s'.source.starts != s.source.starts {
      assert s.source.published[|s.source.acked|] == s.source.messages[0];
    }
  }

  lemma PublishRecords<M>(s: System<M>, ref: Ref)
    requires Valid(s)
    ensures Records(s, PublishSource(ref), Publish(s, ref))
  {
    QuietStep(s.source, Q.PublishCall(Argument(s, ref)));
  }

  lemma SettleRecords<M>(s: System<M>)
    requires Valid(s)
    ensures Records(s, HandlerSettles, Settle(s))
  {
    if s.work.Settling? {
      HandlerSettled(s.source, s.work.fate.Some?);
    }
  }

  lemma SourceRecords<M>(s: System<M>, e: Event<M>)
    requires Valid(s) && SourceOnly(e)
    ensures Records(s, e, Step(s, e))
  {
    SourceStep(s, e);
    QuietStep(s.source, SourceCall(e));
  }

  /** The other steps leave the source queue and the fates alone. */
  lemma ElsewhereRecords<M>(s: System<M>, e: Event<M>)
    requires !SourceOnly(e) && !e.PublishSource? && !e.ContinueSource? && !e.HandlerSettles?
    ensures Records(s, e, Step(s, e))
  {
    var s' := Step(s, e);
    assert s'.source == s.source && s'.originals == s.originals && s'.snapshots == s.snapshots && s'.fates == s.fates;
  }

  lemma StepRecords<M>(s: System<M>, e: Event<M>)
    requires Valid(s)
    ensures Records(s, e, Step(s, e))
  {
    if SourceOnly(e) {
      SourceRecords(s, e);
    } else if e.PublishSource? {
      PublishRecords(s, e.ref);
    } else if e.ContinueSource? {
      BeginRecords(s, e.prepares);
    } else if e.HandlerSettles? {
      SettleRecords(s);
    } else {
      ElsewhereRecords(s, e);
    }
  }

  lemma RecordsGrow<M>(s: System<M>, e: Event<M>, s': System<M>)
    requires Records(s, e, s')
    ensures Grows(s, s')
  {}

  // ----- Along a run

  /** The state before event `i`. */
  function At<M>(s0: System<M>, events: seq<Event<M>>, i: nat): System<M>
    requires i <= |events|
  {
    Exec(s0, events[..i])
  }

  lemma AtStep<M>(s0: System<M>, events: seq<Event<M>>, i: nat)
    requires i < |events|
    ensures At(s0, events, i + 1) == Step(At(s0, events, i), events[i])
  {
    assert events[..i + 1][..i] == events[..i];
  }

  lemma AtRecords<M>(s0: System<M>, events: seq<Event<M>>, i: nat)
    requires Valid(s0) && i < |events|
    ensures Valid(At(s0, events, i)) && Records(At(s0, events, i), events[i], At(s0, events, i + 1))
  {
    ExecKeeps(s0, events[..i]);
    AtStep(s0, events, i);
    StepRecords(At(s0, events, i), events[i]);
  }

  lemma GrowsOn<M>(s: System<M>, s': System<M>, s'': System<M>)
    requires Grows(s, s') && Grows(s', s'')
    ensures Grows(s, s'')
  {}

  lemma {:induction false} GrowsTo<M>(s0: System<M>, events: seq<Event<M>>, i: nat, j: nat)
    requires Valid(s0) && i <= j <= |events|
    ensures Grows(At(s0, events, i), At(s0, events, j))
  {
    if i < j {
      GrowsTo(s0, events, i, j - 1);
      AtRecords(s0, events, j - 1);
      RecordsGrow(At(s0, events, j - 1), events[j - 1], At(s0, events, j));
      GrowsOn(At(s0, events, i), At(s0, events, j - 1), At(s0, events, j));
    }
  }

  lemma AtEnd<M>(s0: System<M>, events: seq<Event<M>>)
    ensures At(s0, events, |events|) == Exec(s0, events)
  {
    assert events[..|events|] == events;
  }

  /** Event `m` published the message at position `p`. */
  predicate PublishedBy<M>(s0: System<M>, events: seq<Event<M>>, m: nat, p: nat)
  {
    && m < |events|
    && |At(s0, events, m).source.published| == p && |At(s0, events, m + 1).source.published| == p + 1
  }

  /** Event `n` began handler call number `call`. */
  predicate BegunBy<M>(s0: System<M>, events: seq<Event<M>>, n: nat, call: nat)
  {
    && n < |events|
    && |At(s0, events, n).source.starts| == call && |At(s0, events, n + 1).source.starts| == call + 1
  }

  /** The published messages and the handler calls of a system, counted. */
  lemma CountsStep<M>(s0: System<M>, events: seq<Event<M>>, i: nat)
    requires Valid(s0) && i < |events|
    ensures |At(s0, events, i + 1).source.published| <= |At(s0, events, i).source.published| + 1
    ensures |At(s0, events, i + 1).source.starts| <= |At(s0, events, i).source.starts| + 1
  {
    AtRecords(s0, events, i);
  }

  lemma {:induction false} FindPublish<M>(s0: System<M>, events: seq<Event<M>>, n: nat, p: nat) returns (m: nat)
    requires Valid(s0) && n <= |events| && |At(s0, events, 0).source.published| <= p < |At(s0, events, n).source.published|
    ensures m < n && PublishedBy(s0, events, m, p)
  {
    m := n - 1;
    CountsStep(s0, events, m);
    if p < |At(s0, events, m).source.published| {
      m := FindPublish(s0, events, m, p);
    }
  }

  lemma {:induction false} FindStart<M>(s0: System<M>, events: seq<Event<M>>, n: nat, call: nat) returns (k: nat)
    requires Valid(s0) && n <= |events| && |At(s0, events, 0).source.starts| <= call < |At(s0, events, n).source.starts|
    ensures k < n && BegunBy(s0, events, k, call)
  {
    k := n - 1;
    CountsStep(s0, events, k);
    if call < |At(s0, events, k).source.starts| {
      k := FindStart(s0, events, k, call);
    }
  }

  /** A message was published with the content that its object then had. */
  lemma PublishedContent<M>(s0: System<M>, events: seq<Event<M>>, m: nat, p: nat)
    requires Valid(s0) && PublishedBy(s0, events, m, p)
    ensures var s, before := Exec(s0, events), At(s0, events, m);
            && p < |s.source.published| && p < |s.originals| && events[m] == PublishSource(s.source.published[p])
            && 0 <= s.source.published[p] < |before.contents| && s.originals[p] == before.contents[s.source.published[p]]
  {
    AtRecords(s0, events, m);
    GrowsTo(s0, events, m + 1, |events|);
    AtEnd(s0, events);
  }

  /** A handler call found its message with the content that its object then had. */
  lemma BegunContent<M>(s0: System<M>, events: seq<Event<M>>, n: nat, call: nat)
    requires Valid(s0) && BegunBy(s0, events, n, call)
    ensures var s, before := Exec(s0, events), At(s0, events, n);
            && events[n].ContinueSource? && call < |s.source.starts| && call < |s.snapshots|
            && var p := s.source.starts[call];
               && p < |before.source.published| && p < |s.source.published| && before.source.published[p] == s.source.published[p]
               && 0 <= s.source.published[p] < |before.contents| && s.snapshots[call] == before.contents[s.source.published[p]]
  {
    AtRecords(s0, events, n);
    GrowsTo(s0, events, n, n + 1);
    GrowsTo(s0, events, n + 1, |events|);
    AtEnd(s0, events);
  }

  // ----- Whose content a letter holds

  /** The letter of message `p` and the handler call that wrote it, which was the last one for `p`. */
  predicate Gone<M>(s: System<M>, p: nat)
  {
    p < |s.fates| && s.fates[p].DeadLetteredAt? && IsLetterFor(TakenIn(s.letters), s.fates[p].index, p)
  }

  function LetterOf<M>(s: System<M>, p: nat): Entry<M>
    requires Gone(s, p)
  {
    TakenIn(s.letters)[s.fates[p].index]
  }

  /** The last handler call for a dead-lettered message, and the publication of the message, are events of the run. */
  lemma LetterComesFrom<M>(s0: System<M>, events: seq<Event<M>>, p: nat) returns (m: nat, n: nat)
    requires Fresh(s0)
    requires var s := Exec(s0, events); p < |s.fates| && s.fates[p].DeadLetteredAt?
    ensures Gone(Exec(s0, events), p)
    ensures m < n && PublishedBy(s0, events, m, p) && BegunBy(s0, events, n, LetterOf(Exec(s0, events), p).call)
    ensures var s := Exec(s0, events); var call := LetterOf(s, p).call;
            call < |s.source.starts| && s.source.starts[call] == p
            && forall i :: call < i < |s.source.starts| ==> s.source.starts[i] > p
  {
    LettersTellTheTruth(s0, events, p);
    AtEnd(s0, events);
    assert At(s0, events, 0) == s0;
    n := FindStart(s0, events, |events|, LetterOf(Exec(s0, events), p).call);
    BegunContent(s0, events, n, LetterOf(Exec(s0, events), p).call);
    m := FindPublish(s0, events, n, p);
  }

  /**
   A letter holds the message as it was published if and only if, just before the event that began the
   last handler call for it, the message's object still had the content it was published with.
   */
  lemma LetterHoldsOriginalIff<M>(s0: System<M>, events: seq<Event<M>>, p: nat, m: nat, n: nat)
    requires Fresh(s0) && Gone(Exec(s0, events), p)
    requires PublishedBy(s0, events, m, p) && BegunBy(s0, events, n, LetterOf(Exec(s0, events), p).call)
    ensures var s := Exec(s0, events);
            && p < |s.source.published| && p < |s.originals|
            && var ref := s.source.published[p];
               && 0 <= ref < |At(s0, events, m).contents| && 0 <= ref < |At(s0, events, n).contents|
               && s.originals[p] == At(s0, events, m).contents[ref]
               && (LetterOf(s, p).letter.originalMessage == s.originals[p]
                   <==> At(s0, events, n).contents[ref] == At(s0, events, m).contents[ref])
  {
    LettersTellTheTruth(s0, events, p);
    PublishedContent(s0, events, m, p);
    BegunContent(s0, events, n, LetterOf(Exec(s0, events), p).call);
  }

  /** Only a change of the object itself changes its content. */
  lemma {:induction false} ContentStays<M>(s0: System<M>, events: seq<Event<M>>, ref: Ref, m: nat, n: nat)
    requires Valid(s0) && m <= n <= |events| && 0 <= ref < |At(s0, events, m).contents|
    requires forall i :: m <= i < n && events[i].Change? ==> events[i].ref != ref
    ensures ref < |At(s0, events, n).contents| && At(s0, events, n).contents[ref] == At(s0, events, m).contents[ref]
  {
    if m < n {
      ContentStays(s0, events, ref, m, n - 1);
      AtStep(s0, events, n - 1);
      StepContents(At(s0, events, n - 1), events[n - 1], ref);
    }
  }

  lemma StepContents<M>(s: System<M>, e: Event<M>, ref: Ref)
    requires 0 <= ref < |s.contents| && (e.Change? ==> e.ref != ref)
    ensures ref < |Step(s, e).contents| && Step(s, e).contents[ref] == s.contents[ref]
  {}

  /**
   As long as nothing changes a message between its publication and the start of its last handler call,
   its letter holds it as it was published, whatever is done to it during that call.
   */
  lemma LettersHoldOriginals<M>(s0: System<M>, events: seq<Event<M>>, p: nat, m: nat, n: nat, ref: Ref)
    requires Fresh(s0) && Gone(Exec(s0, events), p) && m <= n
    requires PublishedBy(s0, events, m, p) && BegunBy(s0, events, n, LetterOf(Exec(s0, events), p).call)
    requires events[m] == PublishSource(ref)
    requires forall i :: m <= i < n && events[i].Change? ==> events[i].ref != ref
    ensures p < |Exec(s0, events).originals|
    ensures LetterOf(Exec(s0, events), p).letter.originalMessage == Exec(s0, events).originals[p]
  {
    PublishedContent(s0, events, m, p);
    LetterHoldsOriginalIff(s0, events, p, m, n);
    ContentStays(s0, events, ref, m, n);
  }

  /** The letter that a settled attempt writes says whether that attempt failed transiently, and which one it was. */
  lemma LetterSaysWhy<M>(s: System<M>, outcome: R.Outcome<()>, random: Option<real>, clock: bool)
    requires Valid(s) && s.work.Attempting? && AfterOperation(s, outcome, random, clock).work.Publishing?
    ensures var s' := AfterOperation(s, outcome, random, clock); var n := |s.letters.published|;
            && !outcome.Returned? && |s'.letters.published| == n + 1 && s.letters.published == s'.letters.published[..n]
            && s'.letters.published[n].Recorded?
            && var letter := s'.letters.published[n].letter;
               && letter.originalMessage == s.work.original && letter.attempts == s.work.attempt
               && (letter.classification.Transient? <==> outcome.ThrewTransient?)
               && (outcome.ThrewTransient? ==> s.options.maxAttempts == Some(s.work.attempt))
  {}

  // ----- Where a success comes from

  /**
   Event `i` is the return of an attempt for message `p`, in a handler call that is the last one for `p`
   before event `n`.
   */
  predicate ReturnedBy<M>(s0: System<M>, events: seq<Event<M>>, i: nat, n: nat, p: nat)
    requires n <= |events|
  {
    && i < n && events[i].OperationSettles? && events[i].outcome.Returned? && At(s0, events, i).work.Attempting?
    && var starts, later := At(s0, events, i).source.starts, At(s0, events, n).source.starts;
    && starts != [] && starts[|starts| - 1] == p && starts <= later
    && forall k :: |starts| <= k < |later| ==> later[k] > p
  }

  predicate Succeeding<M(==)>(s: System<M>) { s.work == Settling(Some(Succeeded)) }

  /** What a step that ends with a pending success has left as it was, and where the success came from. */
  predicate Pending<M(==)>(s: System<M>, e: Event<M>, s': System<M>)
  {
    && s'.source.starts == s.source.starts && s'.fates == s.fates
    && (s'.work == s.work || (e.OperationSettles? && e.outcome.Returned? && s.work.Attempting?))
  }

  lemma SourcePending<M>(s: System<M>, e: Event<M>)
    requires Valid(s) && (SourceOnly(e) || e.PublishSource?)
    ensures Pending(s, e, Step(s, e))
  {
    if SourceOnly(e) {
      SourceStep(s, e);
      QuietStep(s.source, SourceCall(e));
    } else {
      QuietStep(s.source, Q.PublishCall(Argument(s, e.ref)));
    }
  }

  lemma BeginPending<M>(s: System<M>, prepares: bool)
    requires Valid(s) && Succeeding(Begin(s, prepares))
    ensures Pending(s, ContinueSource(prepares), Begin(s, prepares))
  {}

  lemma WorkPending<M>(s: System<M>, e: Event<M>)
    requires Succeeding(Step(s, e)) && !SourceOnly(e) && !e.PublishSource? && !e.ContinueSource?
    ensures Pending(s, e, Step(s, e))
  {}

  /** The work comes to success only by a returned attempt, and the handler call stays the same until it settles. */
  lemma Succeeds<M>(s: System<M>, e: Event<M>)
    requires Valid(s) && Succeeding(Step(s, e))
    ensures Pending(s, e, Step(s, e))
  {
    if SourceOnly(e) || e.PublishSource? {
      SourcePending(s, e);
    } else if e.ContinueSource? {
      BeginPending(s, e.prepares);
    } else {
      WorkPending(s, e);
    }
  }

  /** The handler call in progress is for the message at the head. */
  predicate AtHead<M>(s: System<M>) { s.source.starts != [] && s.source.starts[|s.source.starts| - 1] == |s.fates| }

  lemma HandlingPosition<M>(s: System<M>)
    requires Valid(s) && !s.work.Idle?
    ensures AtHead(s)
  {}

  lemma PendingStep<M>(s0: System<M>, events: seq<Event<M>>, i: nat)
    requires Valid(s0) && i < |events| && Succeeding(At(s0, events, i + 1))
    ensures Pending(At(s0, events, i), events[i], At(s0, events, i + 1)) && AtHead(At(s0, events, i))
  {
    ExecKeeps(s0, events[..i]);
    AtStep(s0, events, i);
    Succeeds(At(s0, events, i), events[i]);
    HandlingPosition(At(s0, events, i));
  }

  lemma {:induction false} SuccessPending<M>(s0: System<M>, events: seq<Event<M>>, n: nat) returns (i: nat)
    requires Valid(s0) && n <= |events| && !Succeeding(At(s0, events, 0)) && Succeeding(At(s0, events, n))
    ensures ReturnedBy(s0, events, i, n, |At(s0, events, n).fates|)
  {
    i := n - 1;
    PendingStep(s0, events, i);
    if Succeeding(At(s0, events, i)) {
      i := SuccessPending(s0, events, i);
    }
  }

  /** A fate is given by the settling of a pending one; a handler call begun later is for a later message. */
  lemma FatesStep<M>(s0: System<M>, events: seq<Event<M>>, i: nat)
    requires Valid(s0) && i < |events|
    ensures var s, s' := At(s0, events, i), At(s0, events, i + 1);
            && s.fates <= s'.fates && |s'.fates| <= |s.fates| + 1
            && (s'.fates != s.fates && s'.fates[|s.fates|] == Succeeded ==> Succeeding(s))
            && (s'.source.starts == s.source.starts || s'.source.starts == s.source.starts + [|s.fates|])
            && (s'.fates != s.fates ==> s'.source.starts == s.source.starts)
  {
    AtRecords(s0, events, i);
  }

  lemma ReturnStays<M>(s0: System<M>, events: seq<Event<M>>, i: nat, n: nat, p: nat)
    requires Valid(s0) && n < |events| && ReturnedBy(s0, events, i, n, p) && p < |At(s0, events, n + 1).fates|
    ensures ReturnedBy(s0, events, i, n + 1, p)
  {
    FatesStep(s0, events, n);
  }

  lemma {:induction false} SuccessReturned<M>(s0: System<M>, events: seq<Event<M>>, n: nat, p: nat) returns (i: nat)
    requires Valid(s0) && n <= |events| && !Succeeding(At(s0, events, 0)) && At(s0, events, 0).fates == []
    requires p < |At(s0, events, n).fates| && At(s0, events, n).fates[p] == Succeeded
    ensures ReturnedBy(s0, events, i, n, p)
  {
    var k := n - 1;
    FatesStep(s0, events, k);
    if p < |At(s0, events, k).fates| {
      i := SuccessReturned(s0, events, k, p);
    } else {
      i := SuccessPending(s0, events, k);
    }
    ReturnStays(s0, events, i, k, p);
  }

  /**
   Conservation. In every run, over any interleaving, any outcomes and any number of consumer restarts,
   the accepted messages are, in order: the acknowledged ones, the queued ones, the ones waiting for room
   and the ones that shutdown turned away. An acknowledged message has no letter and an attempt of its
   last handler call returned, or it has exactly one letter. Of the others only the head can have a
   letter, and only between the moment the dead-letter queue took it in and the acknowledgement.
   */
  lemma EveryMessageOnce<M>(s0: System<M>, events: seq<Event<M>>)
    requires Fresh(s0)
    ensures var s := Exec(s0, events); var letters := TakenIn(s.letters); var done := |s.fates|;
            && s.source.published == s.source.acked + s.source.messages + (s.source.waiting + s.source.rejected)
            && |s.source.acked| == done
            && (forall p, k :: 0 <= p < done ==> (IsLetterFor(letters, k, p) <==> s.fates[p] == DeadLetteredAt(k)))
            && (forall p: nat :: p < done && s.fates[p] == Succeeded ==> Returned(s0, events, p))
            && (forall k :: IsLetterFor(letters, k, done) ==> s.source.consumer.Handling? && Current(s.work, k))
            && (forall p, k :: p > done ==> !IsLetterFor(letters, k, p))
            && (forall p, j, k :: IsLetterFor(letters, j, p) && IsLetterFor(letters, k, p) ==> j == k)
  {
    LetteredOnce(s0, events);
    forall p: nat | p < |Exec(s0, events).fates| && Exec(s0, events).fates[p] == Succeeded ensures Returned(s0, events, p) {
      SuccessComesFrom(s0, events, p);
    }
  }

  /** In the last handler call for message `p` an attempt of the operation returned. */
  predicate Returned<M>(s0: System<M>, events: seq<Event<M>>, p: nat)
  {
    exists i: nat :: i < |events| && ReturnedBy(s0, events, i, |events|, p)
  }

  lemma SuccessComesFrom<M>(s0: System<M>, events: seq<Event<M>>, p: nat)
    requires Fresh(s0) && p < |Exec(s0, events).fates| && Exec(s0, events).fates[p] == Succeeded
    ensures Returned(s0, events, p)
  {
    AtEnd(s0, events);
    assert At(s0, events, 0) == s0;
    var i := SuccessReturned(s0, events, |events|, p);
    assert ReturnedBy(s0, events, i, |events|, p);
  }
}
