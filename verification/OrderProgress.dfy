/** Waiting is never circular, and every run ends with every call finished. */
module OrderProgress {
  import opened Wrappers
  import opened JsText
  import opened Sums
  import opened OrderMachine
  import opened OrderInvariant
  import opened OrderSteps
  import opened OrderTheorems
  import opened OrderExits

  ghost predicate DistinctIds(s: State)
  {
    forall c, d :: c in s.clients && d in s.clients && c != d && IsOrder(s.clients[c].call) && IsOrder(s.clients[d].call) ==>
      s.clients[c].call.id != s.clients[d].call.id
  }

  /** The next statement of `c` waits for a resource that `d` holds. */
  predicate WaitsFor(s: State, c: ClientId, d: ClientId)
  {
    && Live(s, c)
    && BlockedBy(s, c).Some?
    && BlockedBy(s, c).value in s.held && s.held[BlockedBy(s, c).value] == d
  }

  function WaitRank(s: State, c: ClientId): nat
    requires c in s.clients
  {
    var pc := s.clients[c].pc;
    if pc.AwaitLock? || pc.Update? then 2 else if pc.Insert? then 1 else 0
  }

  lemma HolderRank(s: State, d: ClientId, r: Resource)
    requires HeldAccounted(s) && Clients(s) && NoUnlocked(s) && r in s.held && s.held[r] == d
    ensures Live(s, d) && Accounts(s.clients[d], r)
    ensures WaitRank(s, d) < if r.ProductRow? then 2 else 1
  {
    assert ClientAt(s, d);
  }

  lemma WaitsDescend(s: State, c: ClientId, d: ClientId)
    requires Inv(s) && NoUnlocked(s) && DistinctIds(s) && WaitsFor(s, c, d)
    ensures Live(s, d) && WaitRank(s, d) < WaitRank(s, c)
  {
    var cl, r := s.clients[c], BlockedBy(s, c).value;
    HolderRank(s, d, r);
    assert ClientAt(s, c);
    if cl.pc.Reserve? {
      assert Accounts(cl, r);
    }
  }

  /**
   The waits-for relation is acyclic with chains of at most two edges: each wait leads to a client
   of smaller rank. Hence a waiting client waits, directly or through one other, for one that can step.
   */
  lemma SomeoneCanStep(s: State, c: ClientId) returns (d: ClientId)
    requires Inv(s) && NoUnlocked(s) && DistinctIds(s) && Live(s, c)
    ensures Enabled(s, d)
    ensures d == c || WaitsFor(s, c, d) || exists m :: WaitsFor(s, c, m) && WaitsFor(s, m, d)
  {
    d := c;
    if !Enabled(s, c) {
      var m := Holder(s, c);
      WaitsDescend(s, c, m);
      d := m;
      if !Enabled(s, m) {
        d := Holder(s, m);
        WaitsDescend(s, m, d);
        if !Enabled(s, d) {
          var e := Holder(s, d);
          WaitsDescend(s, d, e);
        }
      }
    }
  }

  lemma Holder(s: State, c: ClientId) returns (d: ClientId)
    requires Live(s, c) && !Enabled(s, c)
    ensures WaitsFor(s, c, d)
  {
    d := s.held[BlockedBy(s, c).value];
  }

  // ----- Termination

  /** A bound on the statements a client still runs. */
  function StepsLeft(cl: Client): nat
  {
    var retries := if cl.call.OptimisticReserve? then cl.call.maxRetries else 0;
    match cl.pc
    case Start => 2 * retries + 8
    case Lookup => 7
    case AwaitLock => 6
    case Recheck(_) => 5
    case Reserve(_) => 4
    case ReadProduct => 4
    case Insert => 3
    case ReadBack => 2
    case InsertProcessing => 2
    case CheckReference => 2
    case Commit(_) => 1
    case Rollback(_) => 1
    case Publish(_) => 1
    case Read(attempt) => if attempt <= retries + 1 then 2 * (retries + 1 - attempt) + 2 else 0
    case Update(attempt, _) => if attempt <= retries + 1 then 2 * (retries + 1 - attempt) + 1 else 0
    case Done(_) => 0
  }

  /** The kind of call fits the control point, and an attempt is within the retries. */
  predicate Fits(cl: Client)
  {
    match cl.pc
    case Lookup => IsOrder(cl.call)
    case Recheck(_) => IsOrder(cl.call)
    case Insert => IsOrder(cl.call)
    case ReadBack => IsOrder(cl.call)
    case InsertProcessing => IsOrder(cl.call)
    case Read(attempt) => cl.call.OptimisticReserve? && 1 <= attempt <= cl.call.maxRetries + 1
    case Update(attempt, _) => cl.call.OptimisticReserve? && 1 <= attempt <= cl.call.maxRetries + 1
    case _ => true
  }

  lemma ClientFits(s: State, c: ClientId)
    requires c in s.clients && ClientAt(s, c)
    ensures Fits(s.clients[c])
  {}

  /** The control points up to the first write. */
  predicate Early(pc: Pc) { pc.Start? || pc.Lookup? || pc.AwaitLock? || pc.Recheck? || pc.ReadProduct? || pc.Reserve? }

  lemma StartSpends(s: State, c: ClientId)
    requires Live(s, c) && OrdersIndexed(s.db) && Fits(s.clients[c])
    requires s.clients[c].pc.Start? || s.clients[c].pc.Lookup? || s.clients[c].pc.AwaitLock?
    ensures StepsLeft(Advance(s, c).clients[c]) < StepsLeft(s.clients[c])
  {}

  lemma RecheckSpends(s: State, c: ClientId)
    requires Live(s, c) && OrdersIndexed(s.db) && Fits(s.clients[c]) && s.clients[c].pc.Recheck?
    ensures StepsLeft(Advance(s, c).clients[c]) < StepsLeft(s.clients[c])
  {}

  lemma EarlySpends(s: State, c: ClientId)
    requires Live(s, c) && OrdersIndexed(s.db) && Fits(s.clients[c])
    requires s.clients[c].pc.ReadProduct? || s.clients[c].pc.Reserve?
    ensures StepsLeft(Advance(s, c).clients[c]) < StepsLeft(s.clients[c])
  {}

  lemma AttemptSpends(s: State, c: ClientId)
    requires Live(s, c) && OrdersIndexed(s.db) && Fits(s.clients[c]) && (s.clients[c].pc.Read? || s.clients[c].pc.Update?)
    ensures StepsLeft(Advance(s, c).clients[c]) < StepsLeft(s.clients[c])
  {}

  lemma RowSpends(s: State, c: ClientId)
    requires c in s.clients && IsOrder(s.clients[c].call) && s.clients[c].pc.Insert?
    ensures StepsLeft(InsertRow(s, c).clients[c]) < StepsLeft(s.clients[c])
  {}

  lemma InsertSpends(s: State, c: ClientId)
    requires Live(s, c) && OrdersIndexed(s.db) && Fits(s.clients[c]) && s.clients[c].pc.Insert?
    ensures StepsLeft(Advance(s, c).clients[c]) < StepsLeft(s.clients[c])
  {
    RowSpends(s, c);
    assert Advance(s, c) == InsertRow(s, c);
  }

  lemma ReadBackSpends(s: State, c: ClientId)
    requires Live(s, c) && OrdersIndexed(s.db) && Fits(s.clients[c]) && s.clients[c].pc.ReadBack?
    ensures StepsLeft(Advance(s, c).clients[c]) < StepsLeft(s.clients[c])
  {}

  lemma LateSpends(s: State, c: ClientId)
    requires Live(s, c) && OrdersIndexed(s.db) && Fits(s.clients[c]) && !Early(s.clients[c].pc)
    requires !s.clients[c].pc.Insert? && !s.clients[c].pc.ReadBack? && !s.clients[c].pc.Read? && !s.clients[c].pc.Update?
    ensures StepsLeft(Advance(s, c).clients[c]) < StepsLeft(s.clients[c])
  {}

  lemma AdvanceSpends(s: State, c: ClientId)
    requires Live(s, c) && OrdersIndexed(s.db) && Fits(s.clients[c])
    ensures StepsLeft(Advance(s, c).clients[c]) < StepsLeft(s.clients[c])
  {
    if s.clients[c].pc.Start? || s.clients[c].pc.Lookup? || s.clients[c].pc.AwaitLock? {
      StartSpends(s, c);
    } else if s.clients[c].pc.Recheck? {
      RecheckSpends(s, c);
    } else if Early(s.clients[c].pc) {
      EarlySpends(s, c);
    } else if s.clients[c].pc.Read? || s.clients[c].pc.Update? {
      AttemptSpends(s, c);
    } else if s.clients[c].pc.Insert? {
      InsertSpends(s, c);
    } else if s.clients[c].pc.ReadBack? {
      ReadBackSpends(s, c);
    } else {
      LateSpends(s, c);
    }
  }

  lemma StepSpends(s: State, c: ClientId, s': State)
    requires StepOf(s, c, s') && ClientAt(s, c)
    ensures StepsLeft(s'.clients[c]) < StepsLeft(s.clients[c])
  {
    ClientFits(s, c);
    if s' == Advance(s, c) {
      AdvanceSpends(s, c);
    } else {
      LiveHasSteps(s, c);
    }
  }

  lemma LiveHasSteps(s: State, c: ClientId)
    requires Live(s, c) && Fits(s.clients[c])
    ensures StepsLeft(s.clients[c]) > 0
  {}

  ghost function Left(clients: map<ClientId, Client>): ClientId -> int
  {
    c => if c in clients then StepsLeft(clients[c]) else 0
  }

  ghost function Fuel(s: State): int { Sum(s.clients.Keys, Left(s.clients)) }

  lemma NextSpends(s: State, s': State)
    requires Inv(s) && Next(s, s')
    ensures Fuel(s') < Fuel(s)
  {
    var c :| StepOf(s, c, s');
    assert ClientAt(s, c);
    StepKeepsCalls(s, c, s');
    StepSpends(s, c, s');
    SumUpdate(s.clients.Keys, c, Left(s.clients), Left(s'.clients));
  }

  lemma {:induction false} RunBounded(states: seq<State>, i: nat)
    requires Run(states) && i < |states|
    ensures Fuel(states[i]) + i <= Fuel(states[0])
  {
    if i > 0 {
      RunBounded(states, i - 1);
      StepAtSpends(states, i - 1);
    }
  }

  lemma StepAtSpends(states: seq<State>, i: nat)
    requires Run(states) && i + 1 < |states|
    ensures Fuel(states[i + 1]) < Fuel(states[i])
  {
    RunKeeps(states, i);
    assert StepAt(states, i);
    NextSpends(states[i], states[i + 1]);
  }

  /** No run, fair or not, is longer than what its calls can take. */
  lemma RunsEnd(states: seq<State>)
    requires Run(states)
    ensures |states| <= Fuel(states[0]) + 1
  {
    RunBounded(states, |states| - 1);
    SumBounds(states[|states| - 1].clients.Keys, Left(states[|states| - 1].clients));
  }

  ghost predicate Stuck(s: State) { forall c :: !Enabled(s, c) }

  ghost predicate AllDone(s: State) { forall c :: c in s.clients ==> s.clients[c].pc.Done? }

  /**
   Without unlocked writers and with distinct order ids: as long as some call is unfinished the run
   can go on without any abort, so a run that cannot go on has finished every call.
   */
  lemma StuckRunsAreDone(states: seq<State>, i: nat)
    requires Run(states) && i < |states| && NoUnlocked(states[0]) && DistinctIds(states[0])
    ensures Stuck(states[i]) <==> AllDone(states[i])
  {
    RunKeeps(states, i);
    RunKeepsCalls(states, 0, i);
    var s := states[i];
    if Stuck(s) {
      forall c | c in s.clients ensures s.clients[c].pc.Done? {
        if Live(s, c) {
          var d := SomeoneCanStep(s, c);
        }
      }
    }
  }
}
