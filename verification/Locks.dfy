/**
 Token leases and message claims on a Redis server: `SET NX` with a time to live, and a script that
 deletes a key only while it holds a given value. Any number of clients send commands; the server
 executes each at most once at some later time, even when the client has already given up on it, and
 any reply may be lost. Time passes in milliseconds.
 */
module Locks {
  import opened Wrappers
  import opened JsText
  import opened ClaimKeys

  // ----- The server

  /** A successful `SET NX`. It ends when it is deleted by a call, or else when its time to live is over. */
  datatype Grant = Grant(key: Text, value: Text, owner: nat, from: nat, until: nat, deletion: Option<Deletion>)

  datatype Deletion = Deletion(at: nat, caller: nat)

  datatype Entry = Entry(value: Text, expires: nat, grant: nat)

  /** `grants` is history: all successful `SET NX` commands in the order in which they were executed. */
  datatype Server = Server(now: nat, entries: map<Text, Entry>, grants: seq<Grant>)

  predicate Live(s: Server, key: Text) { key in s.entries && s.now < s.entries[key].expires }

  function SetNx(s: Server, key: Text, value: Text, ttl: nat, owner: nat): Server
  {
    if Live(s, key) then s
    else s.(entries := s.entries[key := Entry(value, s.now + ttl, |s.grants|)],
            grants := s.grants + [Grant(key, value, owner, s.now, s.now + ttl, None)])
  }

  predicate Holds(s: Server, key: Text, value: Text) { Live(s, key) && s.entries[key].value == value }

  /** The release script. */
  function CompareAndDelete(s: Server, key: Text, value: Text, caller: nat): Server
  {
    if !Holds(s, key, value) then s
    else
      var g := s.entries[key].grant;
      s.(entries := s.entries - {key},
         grants := if g < |s.grants| then s.grants[g := s.grants[g].(deletion := Some(Deletion(s.now, caller)))] else s.grants)
  }

  function EndOf(g: Grant): nat { if g.deletion.Some? then g.deletion.value.at else g.until }

  predicate EntriesOk(s: Server)
  {
    forall key :: key in s.entries ==>
      var e := s.entries[key];
      e.grant < |s.grants| && s.grants[e.grant].key == key && s.grants[e.grant].value == e.value
      && s.grants[e.grant].until == e.expires && s.grants[e.grant].deletion == None
  }

  predicate GrantOk(g: Grant, now: nat)
  {
    && g.from < g.until && g.from <= now
    && (g.deletion.Some? ==> g.from <= g.deletion.value.at < g.until && g.deletion.value.at <= now)
  }

  predicate Disjoint(grants: seq<Grant>)
  {
    forall i, j :: 0 <= i < j < |grants| && grants[i].key == grants[j].key ==> EndOf(grants[i]) <= grants[j].from
  }

  predicate ServerOk(s: Server)
  {
    && EntriesOk(s)
    && (forall i :: 0 <= i < |s.grants| ==> GrantOk(s.grants[i], s.now))
    && Disjoint(s.grants)
    && (forall i :: 0 <= i < |s.grants| && s.grants[i].deletion.None? && s.now < s.grants[i].until ==>
          s.grants[i].key in s.entries && s.entries[s.grants[i].key].grant == i)
  }

  lemma SetNxKeeps(s: Server, key: Text, value: Text, ttl: nat, owner: nat)
    requires ServerOk(s) && ttl > 0
    ensures ServerOk(SetNx(s, key, value, ttl, owner))
  {
    if !Live(s, key) {
      forall i | 0 <= i < |s.grants| && s.grants[i].key == key ensures EndOf(s.grants[i]) <= s.now {
        assert GrantOk(s.grants[i], s.now);
      }
    }
  }

  lemma CompareAndDeleteKeeps(s: Server, key: Text, value: Text, caller: nat)
    requires ServerOk(s)
    ensures ServerOk(CompareAndDelete(s, key, value, caller))
  {
    if Holds(s, key, value) {
      var s', g := CompareAndDelete(s, key, value, caller), s.entries[key].grant;
      assert GrantOk(s.grants[g], s.now);
      forall j | 0 <= j < |s.grants| ensures s.grants[j].from <= s.now {
        assert GrantOk(s.grants[j], s.now);
      }
      assert Disjoint(s'.grants);
    }
  }

  lemma PassKeeps(s: Server, ms: nat)
    requires ServerOk(s)
    ensures ServerOk(s.(now := s.now + ms))
  {
    forall i | 0 <= i < |s.grants| ensures GrantOk(s.grants[i], s.now + ms) {
      assert GrantOk(s.grants[i], s.now);
    }
  }

  // ----- The clients

  /** `None` stands for a time to live that is not an integer. A lease is the call that returned it. */
  datatype Request =
    | Acquire(resource: Text, ttlMs: Option<int>)
    | Release(lease: nat)
    | Claim(consumer: Text, messageId: Text, ttlSeconds: Option<int>)

  /** What the server did with a command, and which grant it concerns. */
  datatype Reply = Granted(grant: nat) | Held(grant: nat, at: nat) | Freed(grant: nat) | Gone(at: nat) | Error

  /** What the caller sees: an answer, an unavailable server, or a request that was never sent. */
  datatype Outcome = Answer(ok: bool) | Unavailable | InvalidTtl | InvalidKey

  datatype Call = Call(request: Request, token: Text, reply: Option<Reply>, outcome: Option<Outcome>)

  datatype State = State(lockPrefix: Text, claimPrefix: Text, server: Server, calls: seq<Call>)

  datatype Event =
    | Pass(ms: nat)
    | Start(request: Request, token: Text)
    | Execute(call: nat)
    | Deliver(call: nat)
    | Drop(call: nat)

  /** Claims store the text 1. */
  const ONE: Text := [49]

  const MAX_SAFE_INTEGER := 9007199254740991

  predicate ValidTtl(ttl: Option<int>) { ttl.Some? && 0 < ttl.value <= MAX_SAFE_INTEGER }

  function LockKey(s: State, resource: Text): Text { s.lockPrefix + resource }

  predicate IsLease(s: State, lease: nat)
  {
    lease < |s.calls| && s.calls[lease].request.Acquire? && s.calls[lease].outcome == Some(Answer(true))
  }

  /** The token factory never repeats itself. */
  predicate FreshToken(s: State, token: Text)
  {
    token != ONE && forall c :: 0 <= c < |s.calls| ==> s.calls[c].token != token
  }

  function StartCall(s: State, request: Request, token: Text): State
  {
    match request
    case Acquire(_, ttlMs) =>
      if !FreshToken(s, token) then s
      else s.(calls := s.calls + [Call(request, token, None, if ValidTtl(ttlMs) then None else Some(InvalidTtl))])
    case Release(lease) => if IsLease(s, lease) then s.(calls := s.calls + [Call(request, ONE, None, None)]) else s
    case Claim(consumer, messageId, _) =>
      s.(calls := s.calls + [Call(request, ONE, None,
                                  if ClaimKey(s.claimPrefix, consumer, messageId).None? then Some(InvalidKey) else None)])
  }

  predicate Sent(call: Call) { call.outcome != Some(InvalidTtl) && call.outcome != Some(InvalidKey) }

  function Replied(s: State, c: nat, server: Server, reply: Reply): State
    requires c < |s.calls|
  {
    s.(server := server, calls := s.calls[c := s.calls[c].(reply := Some(reply))])
  }

  /** SET NX: granted, or refused while another grant of the key lasts. */
  function ExecuteSet(s: State, c: nat, key: Text, value: Text, ttl: nat): State
    requires c < |s.calls|
  {
    if Live(s.server, key) then Replied(s, c, s.server, Held(s.server.entries[key].grant, s.server.now))
    else Replied(s, c, SetNx(s.server, key, value, ttl, c), Granted(|s.server.grants|))
  }

  function ExecuteCall(s: State, c: nat): State
    requires c < |s.calls|
  {
    match s.calls[c].request
    case Acquire(resource, ttlMs) =>
      if ttlMs.None? || ttlMs.value <= 0 then s else ExecuteSet(s, c, LockKey(s, resource), s.calls[c].token, ttlMs.value)
    case Release(lease) =>
      if lease >= |s.calls| || !s.calls[lease].request.Acquire? then s
      else
        var key, token := LockKey(s, s.calls[lease].request.resource), s.calls[lease].token;
        if Holds(s.server, key, token) then
          Replied(s, c, CompareAndDelete(s.server, key, token, c), Freed(s.server.entries[key].grant))
        else Replied(s, c, s.server, Gone(s.server.now))
    case Claim(consumer, messageId, ttlSeconds) =>
      var key := ClaimKey(s.claimPrefix, consumer, messageId);
      if key.None? then s
      else if ttlSeconds.None? || ttlSeconds.value <= 0 then Replied(s, c, s.server, Error)
      else ExecuteSet(s, c, key.value, ONE, ttlSeconds.value * 1000)
  }

  function Answered(reply: Reply): Outcome
  {
    if reply.Error? then Unavailable else Answer(reply.Granted? || reply.Freed?)
  }

  function Step(s: State, e: Event): State
  {
    match e
    case Pass(ms) => s.(server := s.server.(now := s.server.now + ms))
    case Start(request, token) => StartCall(s, request, token)
    case Execute(c) => if c < |s.calls| && s.calls[c].reply.None? && Sent(s.calls[c]) then ExecuteCall(s, c) else s
    case Deliver(c) =>
      if c < |s.calls| && s.calls[c].reply.Some? && s.calls[c].outcome.None? then
        s.(calls := s.calls[c := s.calls[c].(outcome := Some(Answered(s.calls[c].reply.value)))])
      else s
    case Drop(c) =>
      if c < |s.calls| && s.calls[c].outcome.None? then
        s.(calls := s.calls[c := s.calls[c].(outcome := Some(Unavailable))])
      else s
  }

  function Initial(lockPrefix: Text, claimPrefix: Text): State
  {
    State(lockPrefix, claimPrefix, Server(0, map[], []), [])
  }

  function Exec(s: State, events: seq<Event>): State
  {
    if events == [] then s else Step(Exec(s, events[..|events| - 1]), events[|events| - 1])
  }

  // ----- The invariant

  /** The key, the value and the time to live of a command that sets a key. */
  function KeyOf(s: State, request: Request): Option<Text>
  {
    match request
    case Acquire(resource, _) => Some(LockKey(s, resource))
    case Release(_) => None
    case Claim(consumer, messageId, _) => ClaimKey(s.claimPrefix, consumer, messageId)
  }

  function TtlOf(request: Request): int
  {
    match request
    case Acquire(_, ttlMs) => if ttlMs.Some? then ttlMs.value else 0
    case Release(_) => 0
    case Claim(_, _, ttlSeconds) => if ttlSeconds.Some? then ttlSeconds.value * 1000 else 0
  }

  /** The grant was made by its owner's command, and deleted by a release of its owner's lease. */
  predicate GrantFits(s: State, g: nat)
    requires g < |s.server.grants|
  {
    var grant := s.server.grants[g];
    && grant.owner < |s.calls| && s.calls[grant.owner].reply == Some(Granted(g))
    && !s.calls[grant.owner].request.Release? && KeyOf(s, s.calls[grant.owner].request) == Some(grant.key)
    && grant.value == s.calls[grant.owner].token && grant.until == grant.from + TtlOf(s.calls[grant.owner].request)
    && (grant.deletion.Some? ==>
          var caller := grant.deletion.value.caller;
          caller < |s.calls| && s.calls[caller].request == Release(grant.owner) && s.calls[caller].reply == Some(Freed(g)))
  }

  predicate CallFits(s: State, c: nat)
    requires c < |s.calls|
  {
    var call, grants := s.calls[c], s.server.grants;
    && (call.request.Release? ==> IsLease(s, call.request.lease))
    && (call.token == ONE <==> !call.request.Acquire?)
    && (call.outcome.Some? && call.outcome.value.Answer? ==> call.reply.Some? && call.outcome.value == Answered(call.reply.value))
    && (call.reply.Some? ==> ReplyFits(s, c, call.reply.value))
  }

  predicate ReplyFits(s: State, c: nat, reply: Reply)
    requires c < |s.calls|
  {
    var call, grants := s.calls[c], s.server.grants;
    match reply
    case Granted(g) => g < |grants| && grants[g].owner == c
    case Held(g, at) =>
      && !call.request.Release? && TtlOf(call.request) > 0 && g < |grants| && KeyOf(s, call.request) == Some(grants[g].key)
      && grants[g].from <= at <= EndOf(grants[g]) && at < grants[g].until && at <= s.server.now
    case Freed(g) =>
      g < |grants| && call.request == Release(grants[g].owner) && grants[g].deletion.Some? && grants[g].deletion.value.caller == c
    case Gone(at) =>
      && call.request.Release? && call.request.lease < |s.calls| && at <= s.server.now
      && s.calls[call.request.lease].reply.Some? && s.calls[call.request.lease].reply.value.Granted?
      && var g := s.calls[call.request.lease].reply.value.grant; g < |grants| && EndOf(grants[g]) <= at
    case Error => call.request.Claim? && TtlOf(call.request) <= 0
  }

  predicate Tokens(calls: seq<Call>)
  {
    forall c, d :: 0 <= c < d < |calls| && calls[c].request.Acquire? && calls[d].request.Acquire? ==>
      calls[c].token != calls[d].token
  }

  predicate Valid(s: State)
  {
    && ServerOk(s.server) && Tokens(s.calls)
    && (forall g :: 0 <= g < |s.server.grants| ==> GrantFits(s, g))
    && (forall c :: 0 <= c < |s.calls| ==> CallFits(s, c))
  }

  // ----- Each step keeps the invariant

  predicate CallGrows(a: Call, b: Call)
  {
    && a.request == b.request && a.token == b.token
    && (a.reply.Some? ==> b.reply == a.reply) && (a.outcome.Some? ==> b.outcome == a.outcome)
  }

  predicate GrantGrows(a: Grant, b: Grant, now: nat)
  {
    && b.(deletion := None) == a.(deletion := None)
    && (b.deletion == a.deletion || (a.deletion.None? && b.deletion.Some? && now == b.deletion.value.at < a.until))
  }

  /** Nothing that has happened is undone. */
  predicate Grows(s: State, s': State)
  {
    && s'.lockPrefix == s.lockPrefix && s'.claimPrefix == s.claimPrefix && s.server.now <= s'.server.now
    && |s.calls| <= |s'.calls| && |s.server.grants| <= |s'.server.grants|
    && (forall c :: 0 <= c < |s.calls| ==> CallGrows(s.calls[c], s'.calls[c]))
    && (forall g :: 0 <= g < |s.server.grants| ==> GrantGrows(s.server.grants[g], s'.server.grants[g], s.server.now))
  }

  lemma GrantStays(s: State, s': State, g: nat)
    requires Grows(s, s') && g < |s.server.grants| && GrantFits(s, g)
    requires s'.server.grants[g].deletion == s.server.grants[g].deletion
    ensures GrantFits(s', g)
  {
    var grant := s.server.grants[g];
    assert GrantGrows(grant, s'.server.grants[g], s.server.now);
    assert CallGrows(s.calls[grant.owner], s'.calls[grant.owner]);
    if grant.deletion.Some? {
      assert CallGrows(s.calls[grant.deletion.value.caller], s'.calls[grant.deletion.value.caller]);
    }
  }

  lemma ReplyStays(s: State, s': State, c: nat, reply: Reply)
    requires Grows(s, s') && c < |s.calls| && ReplyFits(s, c, reply)
    ensures ReplyFits(s', c, reply)
  {
    assert CallGrows(s.calls[c], s'.calls[c]);
    match reply
    case Granted(g) => assert GrantGrows(s.server.grants[g], s'.server.grants[g], s.server.now);
    case Held(g, _) => assert GrantGrows(s.server.grants[g], s'.server.grants[g], s.server.now);
    case Freed(g) => assert GrantGrows(s.server.grants[g], s'.server.grants[g], s.server.now);
    case Gone(_) =>
      var lease := s.calls[c].request.lease;
      assert CallGrows(s.calls[lease], s'.calls[lease]);
      var g := s.calls[lease].reply.value.grant;
      assert GrantGrows(s.server.grants[g], s'.server.grants[g], s.server.now);
    case Error =>
  }

  lemma CallStays(s: State, s': State, c: nat)
    requires Grows(s, s') && c < |s.calls| && CallFits(s, c)
    requires s'.calls[c] == s.calls[c]
    ensures CallFits(s', c)
  {
    if s.calls[c].request.Release? {
      assert CallGrows(s.calls[s.calls[c].request.lease], s'.calls[s.calls[c].request.lease]);
    }
    if s.calls[c].reply.Some? {
      ReplyStays(s, s', c, s.calls[c].reply.value);
    }
  }

  /** The part of the invariant that one changed call and one changed grant do not touch. */
  lemma OthersStay(s: State, s': State, c: nat, g: nat)
    requires Valid(s) && Grows(s, s')
    requires forall d :: 0 <= d < |s.calls| && d != c ==> s'.calls[d] == s.calls[d]
    requires forall h :: 0 <= h < |s.server.grants| && h != g ==> s'.server.grants[h].deletion == s.server.grants[h].deletion
    ensures forall d :: 0 <= d < |s.calls| && d != c ==> CallFits(s', d)
    ensures forall h :: 0 <= h < |s.server.grants| && h != g ==> GrantFits(s', h)
  {
    forall d | 0 <= d < |s.calls| && d != c ensures CallFits(s', d) {
      CallStays(s, s', d);
    }
    forall h | 0 <= h < |s.server.grants| && h != g ensures GrantFits(s', h) {
      GrantStays(s, s', h);
    }
  }

  lemma TokensStay(s: State, s': State)
    requires Grows(s, s') && Tokens(s.calls) && |s'.calls| == |s.calls|
    ensures Tokens(s'.calls)
  {
    forall c, d | 0 <= c < d < |s.calls| && s'.calls[c].request.Acquire? && s'.calls[d].request.Acquire?
      ensures s'.calls[c].token != s'.calls[d].token
    {
      assert CallGrows(s.calls[c], s'.calls[c]) && CallGrows(s.calls[d], s'.calls[d]);
    }
  }

  lemma StartKeeps(s: State, request: Request, token: Text)
    requires Valid(s)
    ensures Valid(StartCall(s, request, token))
  {
    var s' := StartCall(s, request, token);
    if s' != s {
      OthersStay(s, s', |s.calls|, |s.server.grants|);
      assert CallFits(s', |s.calls|);
    }
  }

  lemma OutcomeKeeps(s: State, c: nat, outcome: Outcome)
    requires Valid(s) && c < |s.calls| && s.calls[c].outcome.None?
    requires outcome == Unavailable || (s.calls[c].reply.Some? && outcome == Answered(s.calls[c].reply.value))
    ensures Valid(s.(calls := s.calls[c := s.calls[c].(outcome := Some(outcome))]))
  {
    var s' := s.(calls := s.calls[c := s.calls[c].(outcome := Some(outcome))]);
    OthersStay(s, s', c, |s.server.grants|);
    TokensStay(s, s');
    if s.calls[c].request.Release? {
      assert CallFits(s, c);
    }
    if s.calls[c].reply.Some? {
      ReplyStays(s, s', c, s.calls[c].reply.value);
    }
  }

  /** A reply that changes nothing on the server. */
  lemma ReplyKeeps(s: State, c: nat, reply: Reply)
    requires Valid(s) && c < |s.calls| && s.calls[c].reply.None? && ReplyFits(s, c, reply)
    ensures Valid(Replied(s, c, s.server, reply))
  {
    var s' := Replied(s, c, s.server, reply);
    assert CallFits(s, c);
    OthersStay(s, s', c, |s.server.grants|);
    TokensStay(s, s');
    ReplyStays(s, s', c, reply);
  }

  lemma ExecuteSetKeeps(s: State, c: nat, key: Text, ttl: nat)
    requires Valid(s) && c < |s.calls| && s.calls[c].reply.None?
    requires !s.calls[c].request.Release? && KeyOf(s, s.calls[c].request) == Some(key) && ttl == TtlOf(s.calls[c].request) > 0
    ensures Valid(ExecuteSet(s, c, key, s.calls[c].token, ttl))
  {
    if Live(s.server, key) {
      var g := s.server.entries[key].grant;
      assert GrantOk(s.server.grants[g], s.server.now);
      ReplyKeeps(s, c, Held(g, s.server.now));
    } else {
      var s' := ExecuteSet(s, c, key, s.calls[c].token, ttl);
      SetNxKeeps(s.server, key, s.calls[c].token, ttl, c);
      assert CallFits(s, c);
      OthersStay(s, s', c, |s.server.grants|);
      TokensStay(s, s');
      assert GrantFits(s', |s.server.grants|) && CallFits(s', c);
    }
  }

  /** The entry that holds a lease's token is the lease's own. */
  lemma TokenIsOwn(s: State, lease: nat)
    requires Valid(s) && IsLease(s, lease)
    ensures s.calls[lease].reply.Some? && s.calls[lease].reply.value.Granted?
    ensures var key, g := LockKey(s, s.calls[lease].request.resource), s.calls[lease].reply.value.grant;
            && g < |s.server.grants| && s.server.grants[g].key == key && s.server.grants[g].owner == lease
            && (Holds(s.server, key, s.calls[lease].token) <==> s.server.now < EndOf(s.server.grants[g]))
            && (Holds(s.server, key, s.calls[lease].token) ==> s.server.entries[key].grant == g)
  {
    assert CallFits(s, lease);
    var key, token, g := LockKey(s, s.calls[lease].request.resource), s.calls[lease].token, s.calls[lease].reply.value.grant;
    assert GrantFits(s, g) && GrantOk(s.server.grants[g], s.server.now);
    if Holds(s.server, key, token) {
      var h := s.server.entries[key].grant;
      assert GrantFits(s, h);
      var owner := s.server.grants[h].owner;
      assert CallFits(s, owner) && s.calls[owner].token == token != ONE;
      assert owner == lease;
    }
  }

  lemma ExecuteReleaseKeeps(s: State, c: nat)
    requires Valid(s) && c < |s.calls| && s.calls[c].reply.None? && s.calls[c].request.Release?
    ensures Valid(ExecuteCall(s, c))
  {
    assert CallFits(s, c);
    var lease := s.calls[c].request.lease;
    TokenIsOwn(s, lease);
    var key, token, g := LockKey(s, s.calls[lease].request.resource), s.calls[lease].token, s.calls[lease].reply.value.grant;
    if Holds(s.server, key, token) {
      var s' := ExecuteCall(s, c);
      CompareAndDeleteKeeps(s.server, key, token, c);
      assert GrantFits(s, g);
      OthersStay(s, s', c, g);
      TokensStay(s, s');
      assert GrantFits(s', g) && CallFits(s', c);
    } else {
      ReplyKeeps(s, c, Gone(s.server.now));
    }
  }

  lemma ExecuteKeeps(s: State, c: nat)
    requires Valid(s) && c < |s.calls| && s.calls[c].reply.None? && Sent(s.calls[c])
    ensures Valid(ExecuteCall(s, c))
  {
    assert CallFits(s, c);
    match s.calls[c].request
    case Acquire(resource, ttlMs) =>
      if ttlMs.Some? && ttlMs.value > 0 {
        ExecuteSetKeeps(s, c, LockKey(s, resource), ttlMs.value);
      }
    case Release(_) => ExecuteReleaseKeeps(s, c);
    case Claim(consumer, messageId, ttlSeconds) =>
      var key := ClaimKey(s.claimPrefix, consumer, messageId);
      if key.Some? {
        if ttlSeconds.None? || ttlSeconds.value <= 0 {
          ReplyKeeps(s, c, Error);
        } else {
          ExecuteSetKeeps(s, c, key.value, ttlSeconds.value * 1000);
        }
      }
  }

  lemma PassTimeKeeps(s: State, ms: nat)
    requires Valid(s)
    ensures Valid(Step(s, Pass(ms)))
  {
    PassKeeps(s.server, ms);
    OthersStay(s, Step(s, Pass(ms)), |s.calls|, |s.server.grants|);
  }

  lemma StepKeeps(s: State, e: Event)
    requires Valid(s)
    ensures Valid(Step(s, e))
  {
    match e
    case Pass(ms) => PassTimeKeeps(s, ms);
    case Start(request, token) => StartKeeps(s, request, token);
    case Execute(c) => if c < |s.calls| && s.calls[c].reply.None? && Sent(s.calls[c]) { ExecuteKeeps(s, c); }
    case Deliver(c) =>
      if c < |s.calls| && s.calls[c].reply.Some? && s.calls[c].outcome.None? {
        OutcomeKeeps(s, c, Answered(s.calls[c].reply.value));
      }
    case Drop(c) => if c < |s.calls| && s.calls[c].outcome.None? { OutcomeKeeps(s, c, Unavailable); }
  }

  lemma {:induction false} ExecKeeps(s: State, events: seq<Event>)
    requires Valid(s)
    ensures Valid(Exec(s, events))
  {
    if events != [] {
      ExecKeeps(s, events[..|events| - 1]);
      StepKeeps(Exec(s, events[..|events| - 1]), events[|events| - 1]);
    }
  }

  // ----- Whole-run results

  lemma RunIsValid(lockPrefix: Text, claimPrefix: Text, events: seq<Event>)
    ensures Valid(Exec(Initial(lockPrefix, claimPrefix), events))
  {
    ExecKeeps(Initial(lockPrefix, claimPrefix), events);
  }

  /** A key is taken exactly while one of its grants runs. */
  lemma LiveIff(s: Server, key: Text)
    requires ServerOk(s)
    ensures Live(s, key) <==> exists g :: 0 <= g < |s.grants| && s.grants[g].key == key && Runs(s.grants[g], s.now)
  {
    if Live(s, key) {
      assert GrantOk(s.grants[s.entries[key].grant], s.now);
    }
    forall g | 0 <= g < |s.grants| && s.grants[g].key == key && s.now < EndOf(s.grants[g]) ensures Live(s, key) {
      assert GrantOk(s.grants[g], s.now);
    }
  }

  predicate Runs(g: Grant, t: nat) { g.from <= t < EndOf(g) }

  predicate WasGranted(s: State, c: nat)
  {
    c < |s.calls| && s.calls[c].reply.Some? && s.calls[c].reply.value.Granted?
  }

  lemma GrantsExclude(grants: seq<Grant>, g: nat, h: nat, t: nat)
    requires Disjoint(grants) && g < |grants| && h < |grants| && grants[g].key == grants[h].key
    requires Runs(grants[g], t) && Runs(grants[h], t)
    ensures g == h
  {}

  /**
   Mutual exclusion: whatever is delayed, lost or executed late, two acquisitions of one resource
   never run at the same time, from the moment the server executes them until they end.
   */
  lemma LeasesExclude(lockPrefix: Text, claimPrefix: Text, events: seq<Event>, a: nat, b: nat, t: nat)
    requires var s := Exec(Initial(lockPrefix, claimPrefix), events);
             && a < |s.calls| && b < |s.calls| && s.calls[a].request.Acquire? && s.calls[b].request.Acquire?
             && s.calls[a].request.resource == s.calls[b].request.resource
             && WasGranted(s, a) && WasGranted(s, b)
    ensures var s := Exec(Initial(lockPrefix, claimPrefix), events);
            var g, h := s.calls[a].reply.value.grant, s.calls[b].reply.value.grant;
            g < |s.server.grants| && h < |s.server.grants|
            && (Runs(s.server.grants[g], t) && Runs(s.server.grants[h], t) ==> a == b)
  {
    RunIsValid(lockPrefix, claimPrefix, events);
    var s := Exec(Initial(lockPrefix, claimPrefix), events);
    var g, h := s.calls[a].reply.value.grant, s.calls[b].reply.value.grant;
    assert CallFits(s, a) && CallFits(s, b);
    assert GrantFits(s, g) && GrantFits(s, h);
    if Runs(s.server.grants[g], t) && Runs(s.server.grants[h], t) {
      GrantsExclude(s.server.grants, g, h, t);
    }
  }

  /**
   What the caller of acquire learns. A lease is a grant of that resource to the caller's own token
   for the requested time; `null` means that a grant of the resource ran when the server looked.
   */
  lemma AcquireAnswers(lockPrefix: Text, claimPrefix: Text, events: seq<Event>, c: nat)
    requires var s := Exec(Initial(lockPrefix, claimPrefix), events);
             c < |s.calls| && s.calls[c].request.Acquire? && s.calls[c].outcome.Some? && s.calls[c].outcome.value.Answer?
    ensures var s := Exec(Initial(lockPrefix, claimPrefix), events); var call := s.calls[c]; var grants := s.server.grants;
            && call.reply.Some?
            && (call.outcome.value.ok ==>
                  && call.reply.value.Granted? && call.reply.value.grant < |grants| && call.request.ttlMs.Some?
                  && var g := grants[call.reply.value.grant];
                     && g.owner == c && g.key == LockKey(s, call.request.resource) && g.value == call.token
                     && g.until == g.from + call.request.ttlMs.value)
            && (!call.outcome.value.ok ==>
                  && call.reply.value.Held? && call.reply.value.grant < |grants|
                  && var g := grants[call.reply.value.grant];
                     && g.owner != c && g.key == LockKey(s, call.request.resource)
                     && g.from <= call.reply.value.at <= EndOf(g) && call.reply.value.at < g.until)
  {
    RunIsValid(lockPrefix, claimPrefix, events);
    var s := Exec(Initial(lockPrefix, claimPrefix), events);
    assert CallFits(s, c);
    var g := s.calls[c].reply.value.grant;
    assert GrantFits(s, g) && GrantOk(s.server.grants[g], s.server.now);
  }

  /** A release that answers true deleted the grant of its own lease, and no other release of it ever answers true. */
  lemma ReleaseTrueOnce(lockPrefix: Text, claimPrefix: Text, events: seq<Event>, lease: nat, c: nat, d: nat)
    requires var s := Exec(Initial(lockPrefix, claimPrefix), events);
             && c < |s.calls| && s.calls[c].request == Release(lease) && s.calls[c].outcome == Some(Answer(true))
             && d < |s.calls| && s.calls[d].request == Release(lease) && s.calls[d].outcome == Some(Answer(true))
    ensures c == d
    ensures var s := Exec(Initial(lockPrefix, claimPrefix), events);
            && IsLease(s, lease) && s.calls[lease].reply.Some? && s.calls[lease].reply.value.Granted?
            && var g := s.calls[lease].reply.value.grant;
               g < |s.server.grants| && s.calls[c].reply == Some(Freed(g)) && s.server.grants[g].deletion.Some?
  {
    RunIsValid(lockPrefix, claimPrefix, events);
    var s := Exec(Initial(lockPrefix, claimPrefix), events);
    assert CallFits(s, c) && CallFits(s, d);
    TokenIsOwn(s, lease);
    var g, h := s.calls[c].reply.value.grant, s.calls[d].reply.value.grant;
    assert GrantFits(s, g) && GrantFits(s, h);
  }

  /**
   When the server executes a release, it answers true exactly when the lease still runs; it then
   ends that lease, and in any case leaves every entry with another token alone, a replacement included.
   */
  lemma ReleaseDeletesOwn(s: State, c: nat)
    requires Valid(s) && c < |s.calls| && s.calls[c].reply.None? && s.calls[c].request.Release?
    ensures var lease := s.calls[c].request.lease; var s' := ExecuteCall(s, c);
            && IsLease(s, lease) && s.calls[lease].reply.Some? && s.calls[lease].reply.value.Granted?
            && var g := s.calls[lease].reply.value.grant;
               && g < |s.server.grants| && g < |s'.server.grants|
               && (s'.calls[c].reply == Some(Freed(g)) <==> s.server.now < EndOf(s.server.grants[g]))
               && (s'.calls[c].reply == Some(Freed(g)) || s'.calls[c].reply == Some(Gone(s.server.now)))
               && EndOf(s'.server.grants[g]) <= s.server.now
               && (forall key :: key in s.server.entries && s.server.entries[key].value != s.calls[lease].token ==>
                     key in s'.server.entries && s'.server.entries[key] == s.server.entries[key])
  {
    assert CallFits(s, c);
    TokenIsOwn(s, s.calls[c].request.lease);
  }

  /** A claim is never deleted: two successful claims of one message are at least the first one's time to live apart. */
  lemma ClaimsApart(lockPrefix: Text, claimPrefix: Text, events: seq<Event>, a: nat, b: nat)
    requires var s := Exec(Initial(lockPrefix, claimPrefix), events);
             && a < |s.calls| && b < |s.calls| && a != b && s.calls[a].request.Claim? && s.calls[b].request.Claim?
             && s.calls[a].request.consumer == s.calls[b].request.consumer
             && s.calls[a].request.messageId == s.calls[b].request.messageId
             && s.calls[a].outcome == Some(Answer(true)) && s.calls[b].outcome == Some(Answer(true))
    ensures var s := Exec(Initial(lockPrefix, claimPrefix), events);
            && WasGranted(s, a) && WasGranted(s, b)
            && var g, h := s.calls[a].reply.value.grant, s.calls[b].reply.value.grant;
               && g < |s.server.grants| && h < |s.server.grants|
               && var x, y := s.server.grants[g], s.server.grants[h];
                  x.from + TtlOf(s.calls[a].request) <= y.from || y.from + TtlOf(s.calls[b].request) <= x.from
  {
    RunIsValid(lockPrefix, claimPrefix, events);
    var s := Exec(Initial(lockPrefix, claimPrefix), events);
    ClaimsLast(s, a);
    ClaimsLast(s, b);
  }

  lemma ClaimsLast(s: State, c: nat)
    requires Valid(s) && c < |s.calls| && s.calls[c].request.Claim? && s.calls[c].outcome == Some(Answer(true))
    ensures s.calls[c].reply.Some? && s.calls[c].reply.value.Granted?
    ensures var g := s.calls[c].reply.value.grant;
            && g < |s.server.grants| && s.server.grants[g].owner == c && s.server.grants[g].deletion == None
            && s.server.grants[g].until == s.server.grants[g].from + TtlOf(s.calls[c].request)
            && Some(s.server.grants[g].key) == KeyOf(s, s.calls[c].request)
  {
    assert CallFits(s, c);
    var g := s.calls[c].reply.value.grant;
    assert GrantFits(s, g);
    forall d | 0 <= d < |s.calls| ensures s.calls[d].request != Release(c) {
      assert CallFits(s, d);
    }
  }

  /** No key prefix of one kind is also one of the other. */
  predicate Apart(p: Text, q: Text) { exists i :: 0 <= i < |p| && i < |q| && p[i] != q[i] }

  /** With the two kinds of keys apart, a claim is refused only for an earlier claim of the very same message. */
  lemma ClaimRefusedForItself(lockPrefix: Text, claimPrefix: Text, events: seq<Event>, c: nat)
    requires Apart(lockPrefix, claimPrefix)
    requires var s := Exec(Initial(lockPrefix, claimPrefix), events);
             c < |s.calls| && s.calls[c].request.Claim? && s.calls[c].outcome == Some(Answer(false))
    ensures var s := Exec(Initial(lockPrefix, claimPrefix), events);
            && s.calls[c].reply.Some? && s.calls[c].reply.value.Held? && s.calls[c].reply.value.grant < |s.server.grants|
            && var g := s.server.grants[s.calls[c].reply.value.grant];
               && g.owner < |s.calls| && s.calls[g.owner].request.Claim?
               && s.calls[g.owner].request.consumer == s.calls[c].request.consumer
               && s.calls[g.owner].request.messageId == s.calls[c].request.messageId
               && g.from <= s.calls[c].reply.value.at < g.from + TtlOf(s.calls[g.owner].request)
  {
    RunIsValid(lockPrefix, claimPrefix, events);
    PrefixesStay(Initial(lockPrefix, claimPrefix), events);
    var s := Exec(Initial(lockPrefix, claimPrefix), events);
    assert CallFits(s, c);
    var g := s.calls[c].reply.value.grant;
    assert GrantFits(s, g) && GrantOk(s.server.grants[g], s.server.now);
    var request := s.calls[s.server.grants[g].owner].request;
    if request.Acquire? {
      KeysApart(s, request.resource, s.calls[c].request.consumer, s.calls[c].request.messageId);
    } else {
      ClaimKeyInjective(claimPrefix, request.consumer, request.messageId,
                        s.calls[c].request.consumer, s.calls[c].request.messageId);
    }
  }

  lemma KeysApart(s: State, resource: Text, consumer: Text, messageId: Text)
    requires Apart(s.lockPrefix, s.claimPrefix)
    ensures Some(LockKey(s, resource)) != ClaimKey(s.claimPrefix, consumer, messageId)
  {
    var i :| 0 <= i < |s.lockPrefix| && i < |s.claimPrefix| && s.lockPrefix[i] != s.claimPrefix[i];
    assert LockKey(s, resource)[i] == s.lockPrefix[i];
    if ClaimKey(s.claimPrefix, consumer, messageId).Some? {
      assert ClaimKey(s.claimPrefix, consumer, messageId).value[i] == s.claimPrefix[i];
    }
  }

  lemma {:induction false} PrefixesStay(s: State, events: seq<Event>)
    ensures Exec(s, events).lockPrefix == s.lockPrefix && Exec(s, events).claimPrefix == s.claimPrefix
  {
    if events != [] {
      PrefixesStay(s, events[..|events| - 1]);
    }
  }
}
