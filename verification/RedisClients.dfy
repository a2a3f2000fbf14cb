/**
 The Redis server, the lock and the claim store in place. Every command and everything that happens to
 it is an event of the protocol in `Locks`, so that whatever holds along its runs holds for them.
 */
module RedisClients {
  import opened Wrappers
  import opened JsText
  import opened ClaimKeys
  import opened Locks

  lemma ExecThen(s: State, events: seq<Event>, e: Event)
    ensures Exec(s, events + [e]) == Step(Exec(s, events), e)
  {
    assert (events + [e])[..|events|] == events;
  }

  /** The later calls are the earlier ones with perhaps more replies and outcomes, and new ones. */
  predicate Later(a: seq<Call>, b: seq<Call>)
  {
    |a| <= |b| && forall c :: 0 <= c < |a| ==> CallGrows(a[c], b[c])
  }

  /** What happens to one command: what other clients do before and after it reaches the server, and what the network loses. */
  datatype Trip = Trip(before: seq<Event>, network: Network, after: seq<Event>)

  datatype Network = Delivered | ReplyLost | CommandLost

  predicate Quiet(trip: Trip) { trip.before == [] && trip.after == [] }

  /** The command has all that the server needs to execute it. */
  predicate Servable(claimPrefix: Text, request: Request)
  {
    match request
    case Acquire(_, ttlMs) => ValidTtl(ttlMs)
    case Release(_) => true
    case Claim(consumer, messageId, _) => ClaimKey(claimPrefix, consumer, messageId).Some?
  }

  lemma ServedIsAnswered(s: State, c: nat)
    requires c < |s.calls| && CallFits(s, c) && Servable(s.claimPrefix, s.calls[c].request)
    ensures ExecuteCall(s, c).calls[c].reply.Some? && ExecuteCall(s, c).calls[c].outcome == s.calls[c].outcome
  {}

  lemma ErrorMeansBadTtl(s: State, c: nat)
    requires Valid(s) && c < |s.calls| && s.calls[c].reply.Some?
    ensures s.calls[c].reply.value.Error? <==> s.calls[c].request.Claim? && TtlOf(s.calls[c].request) <= 0
  {
    assert CallFits(s, c);
    if s.calls[c].reply.value.Granted? {
      assert GrantFits(s, s.calls[c].reply.value.grant) && GrantOk(s.server.grants[s.calls[c].reply.value.grant], s.server.now);
    }
  }

  class RedisServer {
    const lockPrefix: Text
    const claimPrefix: Text
    var now: nat
    var entries: map<Text, Entry>
    var grants: seq<Grant>
    /** All commands ever sent, with what has become of them. */
    var calls: seq<Call>
    ghost var events: seq<Event>

    ghost function View(): Server
      reads this
    {
      Server(now, entries, grants)
    }

    ghost function Protocol(): State
      reads this
    {
      State(lockPrefix, claimPrefix, View(), calls)
    }

    /** The events make a run of the protocol that has come to the present state. */
    ghost predicate Connected()
      reads this
    {
      Protocol() == Exec(Initial(lockPrefix, claimPrefix), events)
    }

    constructor (lockPrefix: Text, claimPrefix: Text)
      ensures Connected() && Protocol() == Initial(lockPrefix, claimPrefix) && events == []
    {
      this.lockPrefix, this.claimPrefix := lockPrefix, claimPrefix;
      now, entries, grants, calls, events := 0, map[], [], [], [];
    }

    method SetIfAbsent(key: Text, value: Text, ttl: nat, owner: nat) returns (ok: bool)
      modifies this`entries, this`grants
      ensures ok == !Live(old(View()), key) && View() == SetNx(old(View()), key, value, ttl, owner)
    {
      if key in entries && now < entries[key].expires {
        return false;
      }
      entries := entries[key := Entry(value, now + ttl, |grants|)];
      grants := grants + [Grant(key, value, owner, now, now + ttl, None)];
      ok := true;
    }

    method DeleteIfEqual(key: Text, value: Text, caller: nat) returns (deleted: bool)
      requires ServerOk(View())
      modifies this`entries, this`grants
      ensures deleted == Holds(old(View()), key, value) && View() == CompareAndDelete(old(View()), key, value, caller)
    {
      if key in entries && now < entries[key].expires && entries[key].value == value {
        var g := entries[key].grant;
        grants := grants[g := grants[g].(deletion := Some(Deletion(now, caller)))];
        entries := entries - {key};
        return true;
      }
      deleted := false;
    }

    method Elapse(ms: nat)
      requires Connected()
      modifies this`now, this`events
      ensures Connected() && events == old(events) + [Pass(ms)] && Protocol() == Step(old(Protocol()), Pass(ms))
    {
      ExecThen(Initial(lockPrefix, claimPrefix), events, Pass(ms));
      now := now + ms;
      events := events + [Pass(ms)];
    }

    /** A client sends a command, or fails to form one. */
    method Send(request: Request, token: Text)
      requires Connected()
      modifies this`calls, this`events
      ensures Connected() && events == old(events) + [Start(request, token)]
      ensures Protocol() == StartCall(old(Protocol()), request, token)
      ensures Later(old(calls), calls)
    {
      ExecThen(Initial(lockPrefix, claimPrefix), events, Start(request, token));
      match request {
        case Acquire(_, ttlMs) =>
          if token != ONE && forall c :: 0 <= c < |calls| ==> calls[c].token != token {
            calls := calls + [Call(request, token, None, if ValidTtl(ttlMs) then None else Some(InvalidTtl))];
          }
        case Release(lease) =>
          if lease < |calls| && calls[lease].request.Acquire? && calls[lease].outcome == Some(Answer(true)) {
            calls := calls + [Call(request, ONE, None, None)];
          }
        case Claim(consumer, messageId, _) =>
          var key := ClaimKey(claimPrefix, consumer, messageId);
          calls := calls + [Call(request, ONE, None, if key.None? then Some(InvalidKey) else None)];
      }
      events := events + [Start(request, token)];
    }

    method Reply(c: nat, reply: Reply)
      requires c < |calls|
      modifies this`calls
      ensures calls == old(calls)[c := old(calls)[c].(reply := Some(reply))]
    {
      calls := calls[c := calls[c].(reply := Some(reply))];
    }

    method ServeSet(c: nat, key: Text, value: Text, ttl: nat)
      requires c < |calls|
      modifies this`entries, this`grants, this`calls
      ensures Protocol() == ExecuteSet(old(Protocol()), c, key, value, ttl)
    {
      var n := |grants|;
      var ok := SetIfAbsent(key, value, ttl, c);
      Reply(c, if ok then Granted(n) else Held(entries[key].grant, now));
    }

    method ServeRelease(c: nat, lease: nat)
      requires c < |calls| && lease < |calls| && calls[lease].request.Acquire? && calls[c].request == Release(lease)
      requires ServerOk(View())
      modifies this`entries, this`grants, this`calls
      ensures Protocol() == ExecuteCall(old(Protocol()), c)
    {
      var key, token := lockPrefix + calls[lease].request.resource, calls[lease].token;
      var g := if key in entries then entries[key].grant else 0;
      var deleted := DeleteIfEqual(key, token, c);
      Reply(c, if deleted then Freed(g) else Gone(now));
    }

    /** The server executes a command that has reached it, at whatever time. */
    method Serve(c: nat)
      requires Connected() && c < |calls| && calls[c].reply.None? && Sent(calls[c])
      modifies this`entries, this`grants, this`calls, this`events
      ensures Connected() && events == old(events) + [Execute(c)] && Protocol() == ExecuteCall(old(Protocol()), c)
      ensures Later(old(calls), calls)
    {
      RunIsValid(lockPrefix, claimPrefix, events);
      ExecThen(Initial(lockPrefix, claimPrefix), events, Execute(c));
      assert CallFits(Protocol(), c);
      match calls[c].request {
        case Acquire(resource, ttlMs) =>
          if ttlMs.Some? && ttlMs.value > 0 {
            ServeSet(c, lockPrefix + resource, calls[c].token, ttlMs.value);
          }
        case Release(lease) => ServeRelease(c, lease);
        case Claim(consumer, messageId, ttlSeconds) =>
          var key := ClaimKey(claimPrefix, consumer, messageId);
          if key.Some? {
            if ttlSeconds.None? || ttlSeconds.value <= 0 {
              Reply(c, Error);
            } else {
              ServeSet(c, key.value, ONE, ttlSeconds.value * 1000);
            }
          }
      }
      events := events + [Execute(c)];
    }

    /** The reply of a command reaches its client. */
    method Hear(c: nat)
      requires Connected() && c < |calls| && calls[c].reply.Some? && calls[c].outcome.None?
      modifies this`calls, this`events
      ensures Connected() && events == old(events) + [Deliver(c)]
      ensures calls == old(calls)[c := old(calls)[c].(outcome := Some(Answered(old(calls)[c].reply.value)))]
      ensures Later(old(calls), calls)
    {
      ExecThen(Initial(lockPrefix, claimPrefix), events, Deliver(c));
      calls := calls[c := calls[c].(outcome := Some(Answered(calls[c].reply.value)))];
      events := events + [Deliver(c)];
    }

    /** The client gives up on a command, which may still be executed later. */
    method GiveUp(c: nat)
      requires Connected() && c < |calls| && calls[c].outcome.None?
      modifies this`calls, this`events
      ensures Connected() && events == old(events) + [Drop(c)]
      ensures calls == old(calls)[c := old(calls)[c].(outcome := Some(Unavailable))]
      ensures Later(old(calls), calls)
    {
      ExecThen(Initial(lockPrefix, claimPrefix), events, Drop(c));
      calls := calls[c := calls[c].(outcome := Some(Unavailable))];
      events := events + [Drop(c)];
    }

    /** Time passes, other commands are sent, executed, answered and given up. */
    method Others(mine: nat, moves: seq<Event>)
      requires Connected() && mine < |calls|
      modifies this`now, this`entries, this`grants, this`calls, this`events
      ensures Connected() && old(events) <= events && Later(old(calls), calls)
      ensures mine < |calls| && calls[mine] == old(calls)[mine]
      ensures moves == [] ==> Protocol() == old(Protocol())
    {
      for i := 0 to |moves|
        invariant Connected() && old(events) <= events && Later(old(calls), calls)
        invariant mine < |calls| && calls[mine] == old(calls)[mine]
        invariant i == 0 ==> Protocol() == old(Protocol())
      {
        Other(mine, moves[i]);
      }
    }

    method Other(mine: nat, e: Event)
      requires Connected() && mine < |calls|
      modifies this`now, this`entries, this`grants, this`calls, this`events
      ensures Connected() && old(events) <= events && Later(old(calls), calls)
      ensures mine < |calls| && calls[mine] == old(calls)[mine]
    {
      match e {
        case Pass(ms) => Elapse(ms);
        case Start(request, token) => Send(request, token);
        case Execute(c) => if c != mine && c < |calls| && calls[c].reply.None? && Sent(calls[c]) { Serve(c); }
        case Deliver(c) => if c != mine && c < |calls| && calls[c].reply.Some? && calls[c].outcome.None? { Hear(c); }
        case Drop(c) => if c != mine && c < |calls| && calls[c].outcome.None? { GiveUp(c); }
      }
    }

    /** The command reaches the server and is executed while others go on, unless the network loses it. */
    method Arrive(c: nat, trip: Trip)
      requires Connected() && c < |calls| && Servable(claimPrefix, calls[c].request)
      requires calls[c].reply.None? && calls[c].outcome.None?
      modifies this`now, this`entries, this`grants, this`calls, this`events
      ensures Connected() && old(events) <= events && Later(old(calls), calls)
      ensures calls[c].outcome.None? && (calls[c].reply.Some? <==> !trip.network.CommandLost?)
      ensures Quiet(trip) ==>
                Protocol() == if trip.network.CommandLost? then old(Protocol()) else ExecuteCall(old(Protocol()), c)
    {
      Others(c, trip.before);
      if !trip.network.CommandLost? {
        RunIsValid(lockPrefix, claimPrefix, events);
        ServedIsAnswered(Protocol(), c);
        Serve(c);
        Others(c, trip.after);
      }
    }

    /** The command is executed and answered, unless the network loses it or its reply. */
    method Travel(c: nat, trip: Trip)
      requires Connected() && c < |calls| && Servable(claimPrefix, calls[c].request)
      requires calls[c].reply.None? && calls[c].outcome.None?
      modifies this`now, this`entries, this`grants, this`calls, this`events
      ensures Connected() && old(events) <= events && Later(old(calls), calls)
      ensures trip.network.Delivered? ==>
                && calls[c].reply.Some? && calls[c].outcome == Some(Answered(calls[c].reply.value))
                && (calls[c].reply.value.Error? <==> calls[c].request.Claim? && TtlOf(calls[c].request) <= 0)
      ensures !trip.network.Delivered? ==> calls[c].outcome == Some(Unavailable)
      ensures Quiet(trip) ==>
                && View() == (if trip.network.CommandLost? then old(View()) else ExecuteCall(old(Protocol()), c).server)
                && (trip.network.Delivered? ==> calls[c].reply == ExecuteCall(old(Protocol()), c).calls[c].reply)
    {
      Arrive(c, trip);
      if trip.network.Delivered? {
        RunIsValid(lockPrefix, claimPrefix, events);
        ErrorMeansBadTtl(Protocol(), c);
        Hear(c);
      } else {
        GiveUp(c);
      }
    }
  }

  datatype Lease = Lease(resource: Text, token: Text, ttlMs: int, call: nat)

  datatype AcquireResult = Leased(lease: Lease) | NotAcquired | AcquireInvalidTtl | AcquireUnavailable

  function OutcomeOfAcquire(r: AcquireResult): Outcome
  {
    match r
    case Leased(_) => Answer(true)
    case NotAcquired => Answer(false)
    case AcquireInvalidTtl => InvalidTtl
    case AcquireUnavailable => Unavailable
  }

  /** The lease was answered to the acquisition it names. */
  predicate Issued(calls: seq<Call>, lease: Lease)
  {
    && lease.call < |calls| && calls[lease.call].request == Acquire(lease.resource, Some(lease.ttlMs))
    && calls[lease.call].token == lease.token && calls[lease.call].outcome == Some(Answer(true))
  }

  class RedisLock {
    const client: RedisServer
    const keyPrefix: Text

    constructor (client: RedisServer)
      ensures this.client == client && this.keyPrefix == client.lockPrefix
    {
      this.client, this.keyPrefix := client, client.lockPrefix;
    }

    /**
     One acquire call of the protocol, whatever goes on around it. When nothing does, the resource is
     taken for the token exactly when nobody has it and the command arrives, answered or not.
     */
    method AcquireLease(resource: Text, ttlMs: Option<int>, token: Text, trip: Trip) returns (r: AcquireResult)
      requires client.Connected() && keyPrefix == client.lockPrefix && FreshToken(client.Protocol(), token)
      modifies client`now, client`entries, client`grants, client`calls, client`events
      ensures client.Connected() && old(client.events) <= client.events && Later(old(client.calls), client.calls)
      ensures var c := |old(client.calls)|;
              && c < |client.calls| && client.calls[c].request == Acquire(resource, ttlMs) && client.calls[c].token == token
              && client.calls[c].outcome == Some(OutcomeOfAcquire(r))
              && (r.Leased? ==> r.lease.call == c && Issued(client.calls, r.lease))
      ensures r.AcquireInvalidTtl? <==> ttlMs.None? || ttlMs.value <= 0 || ttlMs.value > 9007199254740991
      ensures r.AcquireUnavailable? <==> !r.AcquireInvalidTtl? && !trip.network.Delivered?
      ensures Quiet(trip) ==>
                && client.View() == (if ValidTtl(ttlMs) && !trip.network.CommandLost?
                                     then SetNx(old(client.View()), keyPrefix + resource, token, ttlMs.value, |old(client.calls)|)
                                     else old(client.View()))
                && (ValidTtl(ttlMs) && trip.network.Delivered? ==>
                      (r.NotAcquired? <==> Live(old(client.View()), keyPrefix + resource)))
    {
      var c := |client.calls|;
      client.Send(Acquire(resource, ttlMs), token);
      if ttlMs.None? || ttlMs.value <= 0 || ttlMs.value > MAX_SAFE_INTEGER {
        return AcquireInvalidTtl;
      }
      client.Travel(c, trip);
      r := match client.calls[c].outcome
           case Some(Answer(ok)) => if ok then Leased(Lease(resource, token, ttlMs.value, c)) else NotAcquired
           case _ => AcquireUnavailable;
    }

    /** One release of a lease; `None` is an unavailable server. When nothing goes on around it, only its own entry is deleted. */
    method ReleaseLease(lease: Lease, trip: Trip) returns (released: Option<bool>)
      requires client.Connected() && keyPrefix == client.lockPrefix && Issued(client.calls, lease)
      modifies client`now, client`entries, client`grants, client`calls, client`events
      ensures client.Connected() && old(client.events) <= client.events && Later(old(client.calls), client.calls)
      ensures var c := |old(client.calls)|;
              && c < |client.calls| && client.calls[c].request == Release(lease.call)
              && client.calls[c].outcome == Some(if released.Some? then Answer(released.value) else Unavailable)
      ensures released.None? <==> !trip.network.Delivered?
      ensures Quiet(trip) ==>
                && client.View() == (if trip.network.CommandLost? then old(client.View())
                                     else CompareAndDelete(old(client.View()), keyPrefix + lease.resource, lease.token, |old(client.calls)|))
                && (released.Some? ==> released.value == Holds(old(client.View()), keyPrefix + lease.resource, lease.token))
    {
      var c := |client.calls|;
      client.Send(Release(lease.call), ONE);
      client.Travel(c, trip);
      released := match client.calls[c].outcome
                  case Some(Answer(ok)) => Some(ok)
                  case _ => None;
    }
  }

  datatype ClaimResult = Claimed | AlreadyClaimed | MalformedKey | ClaimFailed

  function OutcomeOfClaim(r: ClaimResult): Outcome
  {
    match r
    case Claimed => Answer(true)
    case AlreadyClaimed => Answer(false)
    case MalformedKey => InvalidKey
    case ClaimFailed => Unavailable
  }

  class RedisProcessedMessageStore {
    const client: RedisServer
    const keyPrefix: Text

    constructor (client: RedisServer)
      ensures this.client == client && this.keyPrefix == client.claimPrefix
    {
      this.client, this.keyPrefix := client, client.claimPrefix;
    }

    /** One claim. The server refuses a time to live that is not a positive number of seconds. */
    method TryClaim(consumer: Text, messageId: Text, ttlSeconds: Option<int>, trip: Trip) returns (r: ClaimResult)
      requires client.Connected() && keyPrefix == client.claimPrefix
      modifies client`now, client`entries, client`grants, client`calls, client`events
      ensures client.Connected() && old(client.events) <= client.events && Later(old(client.calls), client.calls)
      ensures var c := |old(client.calls)|;
              && c < |client.calls| && client.calls[c].request == Claim(consumer, messageId, ttlSeconds)
              && client.calls[c].outcome == Some(OutcomeOfClaim(r))
      ensures r.MalformedKey? <==> !WellFormed(consumer) || !WellFormed(messageId)
      ensures r.MalformedKey? ==> client.View() == old(client.View())
      ensures !r.MalformedKey? ==>
                (r.ClaimFailed? <==> ttlSeconds.None? || ttlSeconds.value <= 0 || !trip.network.Delivered?)
      ensures Quiet(trip) && !r.MalformedKey? ==>
                var key := ClaimKey(keyPrefix, consumer, messageId);
                && key.Some?
                && client.View() == (if ttlSeconds.None? || ttlSeconds.value <= 0 || trip.network.CommandLost? then old(client.View())
                                     else SetNx(old(client.View()), key.value, [49], ttlSeconds.value * 1000, |old(client.calls)|))
                && (!r.ClaimFailed? ==> (r.AlreadyClaimed? <==> Live(old(client.View()), key.value)))
    {
      KeyPartRoundTrip(consumer);
      KeyPartRoundTrip(messageId);
      var c := |client.calls|;
      client.Send(Claim(consumer, messageId, ttlSeconds), ONE);
      if ClaimKey(keyPrefix, consumer, messageId).None? {
        return MalformedKey;
      }
      client.Travel(c, trip);
      r := match client.calls[c].outcome
           case Some(Answer(ok)) => if ok then Claimed else AlreadyClaimed
           case _ => ClaimFailed;
    }
  }

  // ----- What holds for the leases and claims the methods return

  /** Two leases of one resource that the lock has ever returned do not run at the same time. */
  lemma LeasesOfOneRunApart(client: RedisServer, a: Lease, b: Lease, t: nat)
    requires client.Connected() && Issued(client.calls, a) && Issued(client.calls, b) && a.resource == b.resource
    ensures WasGranted(client.Protocol(), a.call) && WasGranted(client.Protocol(), b.call)
    ensures var g, h := client.calls[a.call].reply.value.grant, client.calls[b.call].reply.value.grant;
            && g < |client.grants| && h < |client.grants|
            && client.grants[g].until == client.grants[g].from + a.ttlMs
            && client.grants[h].until == client.grants[h].from + b.ttlMs
            && (Runs(client.grants[g], t) && Runs(client.grants[h], t) ==> a == b)
  {
    AcquireAnswers(client.lockPrefix, client.claimPrefix, client.events, a.call);
    AcquireAnswers(client.lockPrefix, client.claimPrefix, client.events, b.call);
    LeasesExclude(client.lockPrefix, client.claimPrefix, client.events, a.call, b.call, t);
  }
}
