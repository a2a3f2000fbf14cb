/** A source of orders and a read model that is brought up to date later, one queued write at a time. */
module ConsistencySimulations {
  import opened Wrappers
  import opened WriteLogs

  /** The order as the caller passes it; `None` stands for anything but an object with a non-empty string id. */
  datatype Order<+P> = Order(id: string, payload: P)

  predicate ValidOrder<P>(order: Option<Order<P>>) { order.Some? && order.value.id != "" }

  /** `None` stands for a value that is not an integer. */
  datatype SessionToken = SessionToken(orderId: string, minimumVersion: Option<int>)

  predicate ValidToken(token: Option<SessionToken>)
  {
    token.Some? && token.value.orderId != "" && token.value.minimumVersion.Some? && token.value.minimumVersion.value >= 0
  }

  /** The token that is issued at a write. */
  function TokenOf<P>(record: Record<P>): SessionToken { SessionToken(record.id, Some(record.version)) }

  datatype WriteResult<+P> = Written(order: Record<P>, token: SessionToken) | InvalidOrder | NotCloneable

  datatype SessionRead<+P> = Read(record: Option<Record<P>>) | InvalidToken

  class OrderConsistencySimulation<P(!new)> {
    var source: map<string, Record<P>>
    var readModel: map<string, Record<P>>
    var pendingUpdates: seq<Record<P>>
    ghost var log: seq<Record<P>>
    ghost var applied: nat

    /** Both maps are views of the one log, the read model of a prefix; the queue is exactly the rest. */
    ghost predicate Valid()
      reads this
    {
      && Source(log, source) && Follows(log, applied, readModel, pendingUpdates)
      && forall w :: 0 <= w < |log| ==> log[w].id != ""
    }

    constructor ()
      ensures Valid() && log == [] && applied == 0
    {
      source, readModel, pendingUpdates, log, applied := map[], map[], [], [], 0;
    }

    /** `cloneable` is false when `structuredClone` refuses the order; nothing has changed then. */
    method WriteOrder(order: Option<Order<P>>, cloneable: bool) returns (r: WriteResult<P>)
      requires Valid()
      modifies this`source, this`pendingUpdates, this`log
      ensures Valid()
      ensures r.InvalidOrder? <==> !ValidOrder(order)
      ensures r.NotCloneable? <==> ValidOrder(order) && !cloneable
      ensures !r.Written? ==> log == old(log)
      ensures r.Written? ==>
                && log == old(log) + [r.order]
                && r.order == Record(order.value.id, Writes(old(log), order.value.id) + 1, order.value.payload)
                && r.token == TokenOf(r.order)
    {
      if order.None? || order.value.id == "" {
        return InvalidOrder;
      }
      if !cloneable {
        return NotCloneable;
      }
      var record := Commit(order.value.id, order.value.payload);
      r := Written(record, SessionToken(record.id, Some(record.version)));
    }

    method Commit(id: string, payload: P) returns (record: Record<P>)
      requires Valid() && id != ""
      modifies this`source, this`pendingUpdates, this`log
      ensures Valid() && log == old(log) + [record]
      ensures record == Record(id, Writes(old(log), id) + 1, payload)
    {
      record := Record(id, (if id in source then source[id].version else 0) + 1, payload);
      SourceWrites(log, source, record);
      FollowsWrite(log, applied, readModel, pendingUpdates, record);
      source := source[record.id := record];
      pendingUpdates := pendingUpdates + [record];
      log := log + [record];
    }

    /** The answer is the latest write of the order, and `null` when there is none. */
    method ReadSource(orderId: string) returns (record: Option<Record<P>>)
      requires Valid()
      ensures record.None? <==> Writes(log, orderId) == 0
      ensures record.Some? ==> record.value in log && record.value.id == orderId && record.value.version == Writes(log, orderId)
    {
      FollowsReads(log, source, applied, readModel, pendingUpdates, orderId);
      record := if orderId in source then Some(source[orderId]) else None;
    }

    /** The answer is the latest of the writes that have been applied. */
    method ReadModel(orderId: string) returns (record: Option<Record<P>>)
      requires Valid()
      ensures record.None? <==> Writes(log[..applied], orderId) == 0
      ensures record.Some? ==>
                && record.value in log[..applied] && record.value.id == orderId
                && record.value.version == Writes(log[..applied], orderId)
    {
      FollowsReads(log, source, applied, readModel, pendingUpdates, orderId);
      record := if orderId in readModel then Some(readModel[orderId]) else None;
    }

    /**
     A read with a token answers a write of the order at least as new as the token asks for, from
     the read model when it is new enough; it answers `null` exactly when there is no such write. A token
     that was issued at any of the writes is honoured: its read answers that write or a later one.
     */
    method ReadForSession(token: Option<SessionToken>) returns (r: SessionRead<P>)
      requires Valid()
      ensures r.InvalidToken? <==> !ValidToken(token)
      ensures r.Read? ==>
                var id, minimum := token.value.orderId, token.value.minimumVersion.value;
                var projected := Writes(log[..applied], id);
                && (r.record.None? <==> Writes(log, id) == 0 || Writes(log, id) < minimum)
                && (r.record.Some? ==>
                      && r.record.value in log && r.record.value.id == id && r.record.value.version >= minimum
                      && r.record.value.version == (if projected > 0 && projected >= minimum then projected else Writes(log, id))
                      && r.record.value.version == SessionVersion(log, applied, token.value))
      ensures forall w :: 0 <= w < |log| && token == Some(TokenOf(log[w])) ==>
                r.Read? && r.record.Some? && r.record.value.id == log[w].id && r.record.value.version >= log[w].version
    {
      if token.None? || token.value.orderId == "" || token.value.minimumVersion.None? || token.value.minimumVersion.value < 0 {
        return InvalidToken;
      }
      var orderId, minimumVersion := token.value.orderId, token.value.minimumVersion.value;
      forall w | 0 <= w < |log| && token == Some(TokenOf(log[w])) ensures Writes(log, orderId) >= minimumVersion > 0 {
        IssuedTokensAreHonoured(log, w, |log|);
        assert log[..|log|] == log;
      }
      FollowsReads(log, source, applied, readModel, pendingUpdates, orderId);
      if orderId in readModel && readModel[orderId].version >= minimumVersion {
        return Read(Some(readModel[orderId]));
      }
      r := Read(if orderId in source && source[orderId].version >= minimumVersion then Some(source[orderId]) else None);
    }

    /**
     The oldest pending write is applied: its order goes from its version to the next, and no other
     order changes. Once nothing is pending, the read model is the source.
     */
    method ApplyNextReadModelUpdate() returns (update: Option<Record<P>>)
      requires Valid()
      modifies this`readModel, this`pendingUpdates, this`applied
      ensures Valid()
      ensures update == if old(applied) < |log| then Some(log[old(applied)]) else None
      ensures applied == if update.Some? then old(applied) + 1 else old(applied)
      ensures update.None? ==> readModel == old(readModel)
      ensures update.Some? ==>
                && readModel == old(readModel)[update.value.id := update.value]
                && update.value.version
                   == (if update.value.id in old(readModel) then old(readModel)[update.value.id].version else 0) + 1
      ensures pendingUpdates == [] ==> readModel == source
    {
      FollowsApply(log, source, applied, readModel, pendingUpdates);
      if pendingUpdates == [] {
        return None;
      }
      update := Some(pendingUpdates[0]);
      pendingUpdates := pendingUpdates[1..];
      readModel := readModel[update.value.id := update.value];
      applied := applied + 1;
      FollowsApply(log, source, applied, readModel, pendingUpdates);
    }
  }

  /** What `readForSession` answers for a valid token when the first `applied` writes have been projected. */
  function SessionVersion<P>(log: seq<Record<P>>, applied: nat, token: SessionToken): nat
    requires applied <= |log| && token.minimumVersion.Some?
  {
    var projected := Writes(log[..applied], token.orderId);
    if projected > 0 && projected >= token.minimumVersion.value then projected
    else if Writes(log, token.orderId) >= token.minimumVersion.value then Writes(log, token.orderId) else 0
  }

  /** Read your writes: a token issued at a write is honoured at any later time, however far the read model is behind. */
  lemma IssuedTokensAreHonoured<P>(log: seq<Record<P>>, write: nat, applied: nat)
    requires Versioned(log) && write < |log| && applied <= |log|
    ensures SessionVersion(log, applied, TokenOf(log[write])) >= log[write].version > 0
  {
    Prefix(log, write + 1, write);
    WritesGrow(log, write + 1, |log|, log[write].id);
    assert log[..|log|] == log;
  }

  /** One token, re-read as the read model advances, can go back to an older version, never below what it asks for. */
  lemma SessionReadsMayGoBack()
    ensures var log: seq<Record<int>> := [Record("a", 1, 0), Record("a", 2, 0)]; var token := SessionToken("a", Some(1));
            Versioned(log) && SessionVersion(log, 0, token) == 2 && SessionVersion(log, 1, token) == 1
  {
    var log: seq<Record<int>> := [Record("a", 1, 0), Record("a", 2, 0)];
    assert log[..0] == [] && log[..1] == [log[0]] && log[..1][..0] == [];
    assert log[..2] == log;
  }
}
