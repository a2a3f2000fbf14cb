/** A primary and two replicas, each with its own queue of writes to apply. */
module ReplicationSimulations {
  import opened Wrappers
  import opened WriteLogs

  datatype Order<+P> = Order(id: string, payload: P)

  predicate ValidOrder<P>(order: Option<Order<P>>) { order.Some? && order.value.id != "" }

  datatype WriteResult<+P> = Written(record: Record<P>) | InvalidOrder | NotCloneable

  datatype ReplicaResult<+P> = Answer(record: Option<Record<P>>) | UnknownReplica

  predicate ValidReplicaIds(ids: seq<string>)
  {
    |ids| == 2 && ids[0] != "" && ids[1] != "" && ids[0] != ids[1]
  }

  /** A replica's state and queue; `applied` is history, the number of writes that it has applied. */
  datatype Replica<+P> = Replica(state: map<string, Record<P>>, pending: seq<Record<P>>, applied: nat)

  ghost predicate IsReplica<P(!new)>(log: seq<Record<P>>, replica: Replica<P>)
  {
    Follows(log, replica.applied, replica.state, replica.pending)
  }

  function Enqueued<P>(replica: Replica<P>, record: Record<P>): Replica<P>
  {
    replica.(pending := replica.pending + [record])
  }

  function Next<P>(replica: Replica<P>): Replica<P>
  {
    if replica.pending == [] then replica
    else Replica(replica.state[replica.pending[0].id := replica.pending[0]], replica.pending[1..], replica.applied + 1)
  }

  lemma ReplicaApplies<P(!new)>(log: seq<Record<P>>, primary: map<string, Record<P>>, replica: Replica<P>)
    requires Source(log, primary) && IsReplica(log, replica)
    ensures IsReplica(log, Next(replica))
    ensures replica.pending == [] <==> replica.applied == |log|
    ensures replica.pending == [] ==> replica.state == primary
    ensures replica.pending != [] ==>
              var update := replica.pending[0];
              && replica.applied < |log| && update == log[replica.applied]
              && update.version == (if update.id in replica.state then replica.state[update.id].version else 0) + 1
  {
    FollowsApply(log, primary, replica.applied, replica.state, replica.pending);
  }

  ghost predicate AllReplicas<P(!new)>(log: seq<Record<P>>, replicas: map<string, Replica<P>>)
  {
    forall id :: id in replicas ==> IsReplica(log, replicas[id])
  }

  /** A write that is queued for every replica keeps all of them in step with the log. */
  lemma ReplicasWrite<P(!new)>(log: seq<Record<P>>, replicas: map<string, Replica<P>>, record: Record<P>,
                               after: map<string, Replica<P>>)
    requires AllReplicas(log, replicas)
    requires forall id :: id in after ==> id in replicas && after[id] == Enqueued(replicas[id], record)
    ensures AllReplicas(log + [record], after)
  {
    forall id | id in after ensures IsReplica(log + [record], after[id]) {
      FollowsWrite(log, replicas[id].applied, replicas[id].state, replicas[id].pending, record);
    }
  }

  class OrderReplicationSimulation<P(!new)> {
    const replicaIds: seq<string>
    var primary: map<string, Record<P>>
    var replicas: map<string, Replica<P>>
    ghost var log: seq<Record<P>>

    /** The primary is the view of the whole log, each replica of a prefix of its own; its queue is exactly the rest. */
    ghost predicate Valid()
      reads this
    {
      && ValidReplicaIds(replicaIds) && Source(log, primary)
      && (forall id :: id in replicas <==> id in replicaIds)
      && AllReplicas(log, replicas)
    }

    constructor (ids: seq<string>)
      requires ValidReplicaIds(ids)
      ensures Valid() && log == [] && replicaIds == ids
    {
      replicaIds, primary, log := ids, map[], [];
      replicas := map id | id in ids :: Replica(map[], [], 0);
    }

    /** Every replica's queue gets the write; nothing changes when the order is refused. */
    method WritePrimary(order: Option<Order<P>>, cloneable: bool) returns (r: WriteResult<P>)
      requires Valid()
      modifies this`primary, this`replicas, this`log
      ensures Valid()
      ensures r.InvalidOrder? <==> !ValidOrder(order)
      ensures r.NotCloneable? <==> ValidOrder(order) && !cloneable
      ensures !r.Written? ==> log == old(log) && replicas == old(replicas)
      ensures r.Written? ==>
                && log == old(log) + [r.record]
                && r.record == Record(order.value.id, Writes(old(log), order.value.id) + 1, order.value.payload)
                && forall id :: id in replicas ==>
                     id in old(replicas) && replicas[id] == old(replicas)[id].(pending := old(replicas)[id].pending + [r.record])
    {
      if order.None? || order.value.id == "" {
        return InvalidOrder;
      }
      var id := order.value.id;
      var version := (if id in primary then primary[id].version else 0) + 1;
      if !cloneable {
        return NotCloneable;
      }
      var record := Record(id, version, order.value.payload);
      Commit(record);
      r := Written(record);
    }

    method Commit(record: Record<P>)
      requires Valid() && record.version == (if record.id in primary then primary[record.id].version else 0) + 1
      modifies this`primary, this`replicas, this`log
      ensures Valid() && log == old(log) + [record]
      ensures record.version == Writes(old(log), record.id) + 1
      ensures forall id :: id in replicas ==> id in old(replicas) && replicas[id] == Enqueued(old(replicas)[id], record)
    {
      SourceWrites(log, primary, record);
      Enqueue(record);
      ReplicasWrite(log, old(replicas), record, replicas);
      primary := primary[record.id := record];
      log := log + [record];
    }

    method Enqueue(record: Record<P>)
      requires ValidReplicaIds(replicaIds) && forall id :: id in replicas <==> id in replicaIds
      modifies this`replicas
      ensures forall id :: id in replicas <==> id in replicaIds
      ensures forall id :: id in replicas ==> replicas[id] == Enqueued(old(replicas)[id], record)
    {
      for i := 0 to |replicaIds|
        invariant forall id :: id in replicas <==> id in replicaIds
        invariant forall id :: id in replicas ==>
          replicas[id] == if id in replicaIds[..i] then Enqueued(old(replicas)[id], record) else old(replicas)[id]
      {
        var id := replicaIds[i];
        assert id !in replicaIds[..i] && replicaIds[..i + 1] == replicaIds[..i] + [id];
        replicas := replicas[id := replicas[id].(pending := replicas[id].pending + [record])];
      }
      assert replicaIds[..|replicaIds|] == replicaIds;
    }

    method ReadPrimary(orderId: string) returns (record: Option<Record<P>>)
      requires Valid()
      ensures record.None? <==> Writes(log, orderId) == 0
      ensures record.Some? ==> record.value in log && record.value.id == orderId && record.value.version == Writes(log, orderId)
    {
      var replica := replicas[replicaIds[0]];
      FollowsReads(log, primary, replica.applied, replica.state, replica.pending, orderId);
      record := if orderId in primary then Some(primary[orderId]) else None;
    }

    /** A replica answers the latest of the writes that it has applied, which is never ahead of the primary. */
    method ReadReplica(replicaId: string, orderId: string) returns (r: ReplicaResult<P>)
      requires Valid()
      ensures r.UnknownReplica? <==> replicaId !in replicaIds
      ensures r.Answer? ==>
                var seen := log[..replicas[replicaId].applied];
                && (r.record.None? <==> Writes(seen, orderId) == 0)
                && (r.record.Some? ==>
                      && r.record.value in seen && r.record.value.id == orderId && r.record.value.version == Writes(seen, orderId)
                      && orderId in primary && r.record.value.version <= primary[orderId].version)
    {
      if replicaId !in replicas {
        return UnknownReplica;
      }
      var replica := replicas[replicaId];
      FollowsReads(log, primary, replica.applied, replica.state, replica.pending, orderId);
      r := Answer(if orderId in replica.state then Some(replica.state[orderId]) else None);
    }

    /**
     The oldest write that the replica lacks is applied to it, moving one order to its next version;
     the other replica is not touched. A replica with nothing pending is equal to the primary.
     */
    method ReplicateNext(replicaId: string) returns (r: ReplicaResult<P>)
      requires Valid()
      modifies this`replicas
      ensures Valid()
      ensures r.UnknownReplica? <==> replicaId !in replicaIds
      ensures r.UnknownReplica? || r.record.None? ==> replicas == old(replicas)
      ensures r.Answer? ==>
                var was := old(replicas)[replicaId];
                && r.record == (if was.applied < |log| then Some(log[was.applied]) else None)
                && (r.record.Some? ==>
                      var update := r.record.value;
                      && replicas == old(replicas)[replicaId := Next(was)]
                      && Next(was) == Replica(was.state[update.id := update], was.pending[1..], was.applied + 1)
                      && update.version == (if update.id in was.state then was.state[update.id].version else 0) + 1)
                && (replicas[replicaId].pending == [] ==> replicas[replicaId].state == primary)
    {
      if replicaId !in replicas {
        return UnknownReplica;
      }
      var replica := replicas[replicaId];
      ReplicaApplies(log, primary, replica);
      if replica.pending == [] {
        return Answer(None);
      }
      ReplicaApplies(log, primary, Next(replica));
      replicas := replicas[replicaId := Next(replica)];
      r := Answer(Some(replica.pending[0]));
    }
  }

  /** Exactly two distinct non-empty ids are accepted; `None` stands for anything but an array of strings. */
  method CreateOrderReplication<P(!new)>(ids: Option<seq<string>>) returns (r: Option<OrderReplicationSimulation<P>>)
    ensures r.Some? <==> ids.Some? && ValidReplicaIds(ids.value)
    ensures r.Some? ==> fresh(r.value) && r.value.Valid() && r.value.log == [] && r.value.replicaIds == ids.value
  {
    if ids.None? || |ids.value| != 2 || ids.value[0] == "" || ids.value[1] == "" || ids.value[0] == ids.value[1] {
      return None;
    }
    var simulation := new OrderReplicationSimulation<P>(ids.value);
    r := Some(simulation);
  }

  /**
   Replicas that lack equally many writes are equal, and of two replicas one is never ahead on one
   order and behind on another.
   */
  lemma ReplicasConverge<P(!new)>(log: seq<Record<P>>, m: nat, n: nat, v: map<string, Record<P>>, w: map<string, Record<P>>,
                                  p: seq<Record<P>>, q: seq<Record<P>>, id: string)
    requires Versioned(log) && Follows(log, m, v, p) && Follows(log, n, w, q) && |p| >= |q|
    ensures |p| == |q| ==> v == w
    ensures id in v ==> id in w && v[id].version <= w[id].version
  {
    if id in v {
      ViewsAreOrdered(log, m, n, id);
    }
  }
}
