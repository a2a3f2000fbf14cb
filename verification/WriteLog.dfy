/** The sequence of all writes, and the view of it that a map of latest records gives. */
module WriteLogs {
  import opened Wrappers

  datatype Record<+P> = Record(id: string, version: nat, payload: P)

  /** The latest record of every order. */
  function View<P>(log: seq<Record<P>>): map<string, Record<P>>
  {
    if log == [] then map[] else var last := log[|log| - 1]; View(log[..|log| - 1])[last.id := last]
  }

  function Writes<P>(log: seq<Record<P>>, id: string): nat
  {
    if log == [] then 0 else Writes(log[..|log| - 1], id) + if log[|log| - 1].id == id then 1 else 0
  }

  /** The versions of each order are 1, 2, 3, ... in the order of its writes. */
  ghost predicate Versioned<P>(log: seq<Record<P>>)
  {
    forall i :: 0 <= i < |log| ==> log[i].version == Writes(log[..i], log[i].id) + 1
  }

  lemma Prefix<P>(log: seq<Record<P>>, n: nat, m: nat)
    requires m <= n <= |log|
    ensures log[..n][..m] == log[..m]
  {}

  lemma VersionedPrefix<P>(log: seq<Record<P>>, n: nat)
    requires Versioned(log) && n <= |log|
    ensures Versioned(log[..n])
  {
    forall i | 0 <= i < n ensures log[..n][i].version == Writes(log[..n][..i], log[..n][i].id) + 1 {
      Prefix(log, n, i);
    }
  }

  lemma VersionedAppend<P>(log: seq<Record<P>>, record: Record<P>)
    requires Versioned(log) && record.version == Writes(log, record.id) + 1
    ensures Versioned(log + [record])
  {
    var log' := log + [record];
    forall i | 0 <= i < |log'| ensures log'[i].version == Writes(log'[..i], log'[i].id) + 1 {
      assert log'[..i] == log[..i];
      assert i == |log| ==> log[..i] == log;
    }
  }

  lemma ViewAppend<P>(log: seq<Record<P>>, record: Record<P>)
    ensures View(log + [record]) == View(log)[record.id := record]
  {
    assert (log + [record])[..|log|] == log;
  }

  /** An order is in the view exactly when it has been written, and its version counts its writes. */
  lemma {:induction false} ViewCounts<P>(log: seq<Record<P>>, id: string)
    requires Versioned(log)
    ensures id in View(log) <==> Writes(log, id) > 0
    ensures id in View(log) ==> View(log)[id].id == id && View(log)[id].version == Writes(log, id) && View(log)[id] in log
  {
    if log != [] {
      VersionedPrefix(log, |log| - 1);
      ViewCounts(log[..|log| - 1], id);
    }
  }

  lemma {:induction false} WritesGrow<P>(log: seq<Record<P>>, n: nat, m: nat, id: string)
    requires n <= m <= |log|
    ensures Writes(log[..n], id) <= Writes(log[..m], id)
  {
    if n < m {
      Prefix(log, m, m - 1);
      WritesGrow(log, n, m - 1, id);
    }
  }

  /** Two views of one log never disagree about an order's version except by one being behind. */
  lemma ViewsAreOrdered<P>(log: seq<Record<P>>, n: nat, m: nat, id: string)
    requires Versioned(log) && n <= m <= |log| && id in View(log[..n])
    ensures id in View(log[..m]) && View(log[..n])[id].version <= View(log[..m])[id].version
  {
    VersionedPrefix(log, n);
    VersionedPrefix(log, m);
    ViewCounts(log[..n], id);
    ViewCounts(log[..m], id);
    WritesGrow(log, n, m, id);
  }

  /** A version names one write of its order. */
  lemma VersionsUnique<P>(log: seq<Record<P>>, i: nat, j: nat)
    requires Versioned(log) && i <= j < |log| && log[i].id == log[j].id && log[i].version == log[j].version
    ensures i == j
  {
    if i < j {
      WritesGrow(log, i + 1, j, log[i].id);
      Prefix(log, i + 1, i);
    }
  }

  /** Applying the next write changes one order, from its version to the next one. */
  lemma NextWrite<P>(log: seq<Record<P>>, n: nat)
    requires Versioned(log) && n < |log|
    ensures View(log[..n + 1]) == View(log[..n])[log[n].id := log[n]]
    ensures log[n].version == (if log[n].id in View(log[..n]) then View(log[..n])[log[n].id].version else 0) + 1
  {
    Prefix(log, n + 1, n);
    VersionedPrefix(log, n);
    ViewCounts(log[..n], log[n].id);
  }

  /** What a source and a view behind it look like after the first `applied` of the writes have been applied. */
  ghost predicate Source<P(!new)>(log: seq<Record<P>>, source: map<string, Record<P>>)
  {
    Versioned(log) && source == View(log)
  }

  ghost predicate Follows<P(!new)>(log: seq<Record<P>>, applied: nat, view: map<string, Record<P>>, pending: seq<Record<P>>)
  {
    applied <= |log| && view == View(log[..applied]) && pending == log[applied..]
  }

  /** A write takes the version after the one that the source holds. */
  lemma SourceWrites<P(!new)>(log: seq<Record<P>>, source: map<string, Record<P>>, record: Record<P>)
    requires Source(log, source)
    requires record.version == (if record.id in source then source[record.id].version else 0) + 1
    ensures Source(log + [record], source[record.id := record])
    ensures record.version == Writes(log, record.id) + 1
  {
    ViewCounts(log, record.id);
    VersionedAppend(log, record);
    ViewAppend(log, record);
  }

  /** A write reaches everyone behind as one more pending update. */
  lemma FollowsWrite<P(!new)>(log: seq<Record<P>>, applied: nat, view: map<string, Record<P>>, pending: seq<Record<P>>,
                              record: Record<P>)
    requires Follows(log, applied, view, pending)
    ensures Follows(log + [record], applied, view, pending + [record])
  {
    assert (log + [record])[..applied] == log[..applied];
    assert (log + [record])[applied..] == log[applied..] + [record];
  }

  /**
   Applying the oldest pending write moves its order from its version to the next and nothing else;
   once nothing is pending, the view is the source.
   */
  lemma FollowsApply<P(!new)>(log: seq<Record<P>>, source: map<string, Record<P>>, applied: nat,
                              view: map<string, Record<P>>, pending: seq<Record<P>>)
    requires Source(log, source) && Follows(log, applied, view, pending)
    ensures pending == [] ==> view == source && applied == |log|
    ensures pending != [] ==>
              var update := pending[0];
              && applied < |log| && update == log[applied]
              && Follows(log, applied + 1, view[update.id := update], pending[1..])
              && update.version == (if update.id in view then view[update.id].version else 0) + 1
  {
    if pending == [] {
      assert log[..applied] == log;
    } else {
      NextWrite(log, applied);
    }
  }

  /** What a view can answer about an order: the latest of the applied writes, never ahead of the source. */
  lemma FollowsReads<P(!new)>(log: seq<Record<P>>, source: map<string, Record<P>>, applied: nat,
                              view: map<string, Record<P>>, pending: seq<Record<P>>, id: string)
    requires Source(log, source) && Follows(log, applied, view, pending)
    ensures id in view <==> Writes(log[..applied], id) > 0
    ensures id in view ==> view[id] in log[..applied] && view[id].id == id && view[id].version == Writes(log[..applied], id)
    ensures id in source <==> Writes(log, id) > 0
    ensures id in source ==> source[id] in log && source[id].id == id && source[id].version == Writes(log, id)
    ensures id in view ==> id in source && view[id] in log && view[id].version <= source[id].version
  {
    VersionedPrefix(log, applied);
    ViewCounts(log[..applied], id);
    ViewCounts(log, id);
    WritesGrow(log, applied, |log|, id);
    assert log[..|log|] == log;
  }
}
