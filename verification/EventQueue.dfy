/** The front of the analytics event queue: the bounded dedupe sets that decide whether an app or plugin
    use is reported, and the batching of events into upload requests. */
module EventQueue {
  import opened Options

  const MAX_KEYS := 4096

  /** A turn id with a connector or plugin id. */
  datatype Key = Key(turnId: string, id: string)

  /** The keyed calls made so far: the keys held, and how many calls were admitted and how often the set
      was cleared. */
  datatype Ledger = Ledger(held: set<Key>, admitted: seq<Key>, clears: nat)

  const EmptyLedger := Ledger({}, [], 0)

  predicate MustClear(held: set<Key>) {
    |held| >= MAX_KEYS
  }

  function Record(l: Ledger, key: Key): Ledger {
    var room := if MustClear(l.held) then {} else l.held;
    Ledger(room + {key},
           if key in room then l.admitted else l.admitted + [key],
           if MustClear(l.held) then l.clears + 1 else l.clears)
  }

  function RecordAll(calls: seq<Key>): Ledger {
    if calls == [] then EmptyLedger else Record(RecordAll(calls[..|calls| - 1]), calls[|calls| - 1])
  }

  function Count(keys: seq<Key>, key: Key): nat {
    multiset(keys)[key]
  }

  /** Every admission is either still held or was dropped by a clear of a full set. */
  predicate Accounted(l: Ledger) {
    |l.admitted| == MAX_KEYS * l.clears + |l.held| && |l.held| <= MAX_KEYS
  }

  lemma RecordKeepsAccount(l: Ledger, key: Key)
    requires Accounted(l)
    ensures Accounted(Record(l, key))
  {
    var after := Record(l, key);
    if MustClear(l.held) {
      assert after.held == {key} && |after.admitted| == |l.admitted| + 1;
      assert MAX_KEYS * after.clears == MAX_KEYS * l.clears + MAX_KEYS;
    } else if key in l.held {
      assert after.held == l.held;
    } else {
      assert |after.held| == |l.held| + 1;
    }
  }

  lemma RecordKeepsBound(l: Ledger, key: Key, k: Key)
    requires Count(l.admitted, k) <= l.clears + (if k in l.held then 1 else 0)
    ensures var after := Record(l, key); Count(after.admitted, k) <= after.clears + (if k in after.held then 1 else 0)
  {
    assert multiset(l.admitted + [key]) == multiset(l.admitted) + multiset{key};
  }

  /** Over any sequence of keyed calls, the admissions are the clears' full sets and the keys still held,
      the set never outgrows its bound, and one key is admitted at most once per filling. */
  lemma {:induction false} AdmissionsAccount(calls: seq<Key>)
    ensures var l := RecordAll(calls);
            && |l.admitted| == MAX_KEYS * l.clears + |l.held|
            && |l.held| <= MAX_KEYS
            && (forall k :: Count(l.admitted, k) <= l.clears + (if k in l.held then 1 else 0))
    decreases |calls|
  {
    if calls != [] {
      var before, key := RecordAll(calls[..|calls| - 1]), calls[|calls| - 1];
      AdmissionsAccount(calls[..|calls| - 1]);
      RecordKeepsAccount(before, key);
      forall k ensures Count(RecordAll(calls).admitted, k)
                    <= RecordAll(calls).clears + (if k in RecordAll(calls).held then 1 else 0) {
        RecordKeepsBound(before, key, k);
      }
    }
  }

  /** No key is lost: every key ever called was admitted, and a held key stays admitted. */
  lemma {:induction false} EveryKeyAdmitted(calls: seq<Key>)
    ensures forall k <- calls :: Count(RecordAll(calls).admitted, k) > 0
    ensures forall k <- RecordAll(calls).held :: Count(RecordAll(calls).admitted, k) > 0
    decreases |calls|
  {
    if calls != [] {
      var front, key := calls[..|calls| - 1], calls[|calls| - 1];
      EveryKeyAdmitted(front);
      assert calls == front + [key];
      var before := RecordAll(front);
      assert multiset(before.admitted + [key]) == multiset(before.admitted) + multiset{key};
    }
  }

  /** A key already held is refused, and any other key is admitted. */
  lemma AdmittedIffNew(calls: seq<Key>, key: Key)
    ensures var l := RecordAll(calls);
            RecordAll(calls + [key]).admitted ==
              if key in l.held && |l.held| < MAX_KEYS then l.admitted else l.admitted + [key]
  {
    assert (calls + [key])[..|calls|] == calls;
  }

  /** The shared key sets of the queue. */
  class AnalyticsEventsQueue {
    var appUsedKeys: set<Key>
    var pluginUsedKeys: set<Key>
    ghost var appCalls: seq<Key>
    ghost var pluginCalls: seq<Key>

    ghost predicate Valid()
      reads this
    {
      appUsedKeys == RecordAll(appCalls).held && pluginUsedKeys == RecordAll(pluginCalls).held
    }

    constructor ()
      ensures Valid() && appCalls == [] && pluginCalls == []
    {
      appUsedKeys, pluginUsedKeys := {}, {};
      appCalls, pluginCalls := [], [];
    }

    /** An app without a connector is always reported and leaves no key. */
    method ShouldEnqueueAppUsed(turnId: string, connectorId: Option<string>) returns (admit: bool)
      requires Valid()
      modifies this`appUsedKeys, this`appCalls
      ensures Valid()
      ensures connectorId.None? ==> admit && appCalls == old(appCalls)
      ensures connectorId.Some? ==>
                && appCalls == old(appCalls) + [Key(turnId, connectorId.value)]
                && (RecordAll(appCalls).admitted
                    == RecordAll(old(appCalls)).admitted + if admit then [Key(turnId, connectorId.value)] else [])
    {
      if connectorId.None? {
        return true;
      }
      var key := Key(turnId, connectorId.value);
      AdmittedIffNew(appCalls, key);
      appCalls := appCalls + [key];
      assert appCalls[..|appCalls| - 1] == old(appCalls);
      if |appUsedKeys| >= MAX_KEYS {
        appUsedKeys := {};
      }
      admit := key !in appUsedKeys;
      appUsedKeys := appUsedKeys + {key};
    }

    method ShouldEnqueuePluginUsed(turnId: string, pluginId: string) returns (admit: bool)
      requires Valid()
      modifies this`pluginUsedKeys, this`pluginCalls
      ensures Valid()
      ensures pluginCalls == old(pluginCalls) + [Key(turnId, pluginId)]
      ensures RecordAll(pluginCalls).admitted
           == RecordAll(old(pluginCalls)).admitted + if admit then [Key(turnId, pluginId)] else []
    {
      var key := Key(turnId, pluginId);
      AdmittedIffNew(pluginCalls, key);
      pluginCalls := pluginCalls + [key];
      assert pluginCalls[..|pluginCalls| - 1] == old(pluginCalls);
      if |pluginUsedKeys| >= MAX_KEYS {
        pluginUsedKeys := {};
      }
      admit := key !in pluginUsedKeys;
      pluginUsedKeys := pluginUsedKeys + {key};
    }
  }

  // ---------------------------------------------------------------- batching

  /** An event to upload; some must travel in a request of their own. */
  datatype Upload = Upload(isolated: bool, payload: string)

  type Batch = seq<Upload>

  function Flatten(batches: seq<Batch>): Batch {
    if batches == [] then [] else Flatten(batches[..|batches| - 1]) + batches[|batches| - 1]
  }

  /** A batch that can only be sent alone. */
  predicate IsIsolated(batch: Batch) {
    |batch| == 1 && batch[0].isolated
  }

  predicate IsShared(batch: Batch) {
    batch != [] && forall i | 0 <= i < |batch| :: !batch[i].isolated
  }

  /** A split of the events, in order, into batches that are as few as isolation allows: no two batches
      that could share a request are next to each other. */
  predicate IsBatching(events: Batch, batches: seq<Batch>) {
    && Flatten(batches) == events
    && (forall i | 0 <= i < |batches| :: IsIsolated(batches[i]) || IsShared(batches[i]))
    && (forall i | 0 < i < |batches| :: IsIsolated(batches[i - 1]) || IsIsolated(batches[i]))
  }

  lemma {:induction false} PushBatch(batches: seq<Batch>, batch: Batch)
    requires IsBatching(Flatten(batches), batches)
    requires IsIsolated(batch) || IsShared(batch)
    requires batches != [] ==> IsIsolated(batches[|batches| - 1]) || IsIsolated(batch)
    ensures IsBatching(Flatten(batches) + batch, batches + [batch])
  {
    var after := batches + [batch];
    assert after[..|after| - 1] == batches && after[|after| - 1] == batch;
    assert forall i | 0 <= i < |batches| :: after[i] == batches[i];
  }

  /** The loop's state: finished batches that end in an isolated one, and the shared batch being filled. */
  predicate Batched(seen: Batch, batches: seq<Batch>, current: Batch) {
    && Flatten(batches) + current == seen
    && IsBatching(Flatten(batches), batches)
    && (current == [] || IsShared(current))
    && (batches != [] ==> IsIsolated(batches[|batches| - 1]))
  }

  lemma {:induction false} Extend(seen: Batch, batches: seq<Batch>, current: Batch, event: Upload)
    requires Batched(seen, batches, current) && !event.isolated
    ensures Batched(seen + [event], batches, current + [event])
  {
  }

  lemma {:induction false} Flush(seen: Batch, batches: seq<Batch>, current: Batch)
    requires Batched(seen, batches, current) && current != []
    ensures IsBatching(seen, batches + [current])
  {
    PushBatch(batches, current);
  }

  lemma {:induction false} Isolate(seen: Batch, batches: seq<Batch>, event: Upload)
    requires IsBatching(seen, batches) && event.isolated
    ensures Batched(seen + [event], batches + [[event]], [])
  {
    PushBatch(batches, [event]);
    assert (batches + [[event]])[..|batches|] == batches;
  }

  method TrackEventRequestBatches(events: Batch) returns (batches: seq<Batch>)
    ensures IsBatching(events, batches)
  {
    batches := [];
    var current: Batch := [];
    for i := 0 to |events|
      invariant Batched(events[..i], batches, current)
    {
      var event := events[i];
      assert events[..i + 1] == events[..i] + [event];
      if event.isolated {
        if current != [] {
          Flush(events[..i], batches, current);
          batches := batches + [current];
          current := [];
        }
        Isolate(events[..i], batches, event);
        batches := batches + [[event]];
      } else {
        Extend(events[..i], batches, current, event);
        current := current + [event];
      }
    }
    assert events[..|events|] == events;
    if current != [] {
      Flush(events, batches, current);
      batches := batches + [current];
    }
  }

  /** The batching is determined by the events. */
  lemma {:induction false} BatchingIsUnique(events: Batch, a: seq<Batch>, b: seq<Batch>)
    requires IsBatching(events, a) && IsBatching(events, b)
    ensures a == b
    decreases |a|
  {
    if a == [] || b == [] {
      FlattenEmpty(a);
      FlattenEmpty(b);
    } else {
      var x, y := a[|a| - 1], b[|b| - 1];
      LastBatchesAgree(events, a, b);
      BatchingIsUnique(events[..|events| - |x|], a[..|a| - 1], b[..|b| - 1]);
      assert a == a[..|a| - 1] + [x] && b == b[..|b| - 1] + [y];
    }
  }

  lemma FlattenEmpty(batches: seq<Batch>)
    requires forall i | 0 <= i < |batches| :: IsIsolated(batches[i]) || IsShared(batches[i])
    ensures Flatten(batches) == [] <==> batches == []
  {
  }

  lemma LastBatchesAgree(events: Batch, a: seq<Batch>, b: seq<Batch>)
    requires IsBatching(events, a) && IsBatching(events, b) && a != [] && b != []
    ensures a[|a| - 1] == b[|b| - 1]
    ensures IsBatching(events[..|events| - |a[|a| - 1]|], a[..|a| - 1])
    ensures IsBatching(events[..|events| - |a[|a| - 1]|], b[..|b| - 1])
  {
    var x, y := a[|a| - 1], b[|b| - 1];
    if |x| > |y| {
      LastBatchIsMaximal(events, a, b);
    } else if |y| > |x| {
      LastBatchIsMaximal(events, b, a);
    }
    assert x == events[|events| - |x|..] && y == events[|events| - |y|..];
    assert Flatten(a[..|a| - 1]) == events[..|events| - |x|];
    assert Flatten(b[..|b| - 1]) == events[..|events| - |y|];
  }

  /** Before a shared last batch comes an isolated event, or nothing. */
  lemma EventBeforeLastBatch(events: Batch, batches: seq<Batch>)
    requires IsBatching(events, batches) && batches != [] && !IsIsolated(batches[|batches| - 1])
    ensures var n := |events| - |batches[|batches| - 1]|; 0 <= n && (n == 0 || events[n - 1].isolated)
  {
    var front := batches[..|batches| - 1];
    if front != [] {
      var z := front[|front| - 1];
      assert IsIsolated(z);
      assert Flatten(front) == Flatten(front[..|front| - 1]) + z;
      assert events == Flatten(front) + batches[|batches| - 1];
    }
  }

  lemma LastBatchEnds(events: Batch, batches: seq<Batch>, k: nat)
    requires IsBatching(events, batches) && batches != [] && k < |batches[|batches| - 1]|
    ensures var n := |events| - |batches[|batches| - 1]|; 0 <= n && events[n + k] == batches[|batches| - 1][k]
  {
    assert events == Flatten(batches[..|batches| - 1]) + batches[|batches| - 1];
  }

  /** The last batch of one batching is not longer than that of another. */
  lemma LastBatchIsMaximal(events: Batch, a: seq<Batch>, b: seq<Batch>)
    requires IsBatching(events, a) && IsBatching(events, b) && a != [] && b != []
    ensures |a[|a| - 1]| <= |b[|b| - 1]|
  {
    var x, y := a[|a| - 1], b[|b| - 1];
    assert IsIsolated(y) || IsShared(y);
    if |x| > |y| {
      assert IsShared(x);
      if IsIsolated(y) {
        LastBatchEnds(events, a, |x| - 1);
      } else {
        LastBatchEnds(events, a, |x| - |y| - 1);
        EventBeforeLastBatch(events, b);
      }
    }
  }
}
