/** Threads, connections and the context lookups that thread-scoped events depend on. */
module ReducerContext {
  import opened Options
  import opened AnalyticsTypes
  import opened Reducer

  predicate OpensThread(f: Fact) {
    f.ClientResponse? && f.response.ThreadOpened?
  }

  /** Only an initialize, an opened thread and a spawned subagent change what is known of threads and
      connections. */
  lemma ContextsUntouched(s: State, f: Fact)
    requires !f.Initialize? && !OpensThread(f) && !f.SubAgentThreadStarted?
    ensures Ingest(s, f).state.threads == s.threads && Ingest(s, f).state.connections == s.connections
  {
    if f.ClientResponse? {
      ResponseKeepsContexts(s, f.key, f.response);
    }
  }

  lemma ResponseKeepsContexts(s: State, key: RequestKey, response: ClientResponseBody)
    requires !response.ThreadOpened?
    ensures IngestResponse(s, key, response).state.threads == s.threads
    ensures IngestResponse(s, key, response).state.connections == s.connections
  {
  }

  // ---------------------------------------------------------------- lookups fail for one reason

  /** Every known thread has metadata, and a connection it names is initialised. */
  predicate ContextInvariant(s: State) {
    forall t <- s.threads ::
      s.threads[t].metadata.Some? && (s.threads[t].connection.Some? ==> s.threads[t].connection.value in s.connections)
  }

  lemma IngestKeepsContexts(s: State, f: Fact)
    requires ContextInvariant(s)
    ensures ContextInvariant(Ingest(s, f).state)
  {
    if !f.Initialize? && !OpensThread(f) && !f.SubAgentThreadStarted? {
      ContextsUntouched(s, f);
    }
  }

  lemma {:induction false} ReplayKeepsContexts(s: State, facts: seq<Fact>)
    requires ContextInvariant(s)
    ensures ContextInvariant(Replay(s, facts).state)
    decreases |facts|
  {
    if facts != [] {
      ReplayKeepsContexts(s, facts[..|facts| - 1]);
      IngestKeepsContexts(Replay(s, facts[..|facts| - 1]).state, facts[|facts| - 1]);
    }
  }

  /** In every reachable state a thread-scoped lookup fails only because the thread is unknown or not
      attached to a connection, and a metadata lookup only because the thread is unknown. */
  lemma LookupFailsOnlyForUnattachedThreads(facts: seq<Fact>, t: ThreadId)
    ensures var s := After(facts);
            && (ThreadContext(s, t).None? <==> t !in s.threads || s.threads[t].connection.None?)
            && (MetadataOf(s, t).None? <==> t !in s.threads)
  {
    ReplayKeepsContexts(Empty, facts);
  }

  // ---------------------------------------------------------------- contexts are history

  /** The client of the last initialize on the connection. */
  function ClientOf(facts: seq<Fact>, c: ConnectionId): Option<ClientMetadata> {
    if facts == [] then None
    else
      var f := facts[|facts| - 1];
      if f.Initialize? && f.connection == c then Some(f.client) else ClientOf(facts[..|facts| - 1], c)
  }

  /** A thread opened on an initialised connection. */
  predicate Opens(front: seq<Fact>, f: Fact, t: ThreadId) {
    OpensThread(f) && f.response.thread.id == t && ClientOf(front, f.key.connection).Some?
  }

  predicate Spawns(f: Fact, t: ThreadId) {
    f.SubAgentThreadStarted? && f.start.threadId == t
  }

  /** The connection of the last opening of the thread; a spawned thread keeps its own, and without one takes the
      one its parent had when it was spawned. */
  function AttachmentOf(facts: seq<Fact>, t: ThreadId): Option<ConnectionId> {
    if facts == [] then None
    else
      var front, f := facts[..|facts| - 1], facts[|facts| - 1];
      if Opens(front, f, t) then Some(f.key.connection)
      else if Spawns(f, t) && AttachmentOf(front, t).None? && f.start.parent.Some?
      then AttachmentOf(front, f.start.parent.value)
      else AttachmentOf(front, t)
  }

  /** The description of the last opening of the thread; a spawn describes only an unknown thread. */
  function DescriptionOf(facts: seq<Fact>, t: ThreadId): Option<ThreadMetadata> {
    if facts == [] then None
    else
      var front, f := facts[..|facts| - 1], facts[|facts| - 1];
      if Opens(front, f, t) then
        var thread := f.response.thread;
        Some(ThreadMetadata(thread.sessionId, thread.threadSource, f.response.mode, thread.subagentSource,
                            thread.parent))
      else if Spawns(f, t) && DescriptionOf(front, t).None? then
        Some(ThreadMetadata(f.start.sessionId, Some("subagent"), New, Some(f.start.subagentSource), f.start.parent))
      else DescriptionOf(front, t)
  }

  function AttachmentIn(s: State, t: ThreadId): Option<ConnectionId> {
    if t in s.threads then s.threads[t].connection else None
  }

  lemma ConnectionStep(s: State, f: Fact, c: ConnectionId)
    ensures Lookup(Ingest(s, f).state.connections, c)
         == if f.Initialize? && f.connection == c then Some(f.client) else Lookup(s.connections, c)
  {
    if !f.Initialize? && !OpensThread(f) && !f.SubAgentThreadStarted? {
      ContextsUntouched(s, f);
    }
  }

  lemma {:induction false} ConnectionsAreHistory(facts: seq<Fact>, c: ConnectionId)
    ensures Lookup(After(facts).connections, c) == ClientOf(facts, c)
    decreases |facts|
  {
    if facts != [] {
      ConnectionsAreHistory(facts[..|facts| - 1], c);
      ConnectionStep(After(facts[..|facts| - 1]), facts[|facts| - 1], c);
    }
  }

  lemma OpenStep(s: State, f: Fact, t: ThreadId)
    requires OpensThread(f)
    ensures var hit := f.response.thread.id == t && f.key.connection in s.connections;
            var after := Ingest(s, f).state;
            && AttachmentIn(after, t) == (if hit then Some(f.key.connection) else AttachmentIn(s, t))
            && MetadataOf(after, t)
               == if hit
                  then Some(ThreadMetadata(f.response.thread.sessionId, f.response.thread.threadSource, f.response.mode,
                                           f.response.thread.subagentSource, f.response.thread.parent))
                  else MetadataOf(s, t)
  {
  }

  lemma SpawnStep(s: State, f: Fact, t: ThreadId)
    requires f.SubAgentThreadStarted?
    ensures var after := Ingest(s, f).state;
            && AttachmentIn(after, t)
               == (if f.start.threadId == t && AttachmentIn(s, t).None? && f.start.parent.Some?
                   then AttachmentIn(s, f.start.parent.value) else AttachmentIn(s, t))
            && MetadataOf(after, t)
               == if f.start.threadId == t && MetadataOf(s, t).None?
                  then Some(ThreadMetadata(f.start.sessionId, Some("subagent"), New, Some(f.start.subagentSource),
                                           f.start.parent))
                  else MetadataOf(s, t)
  {
  }

  lemma OtherStep(s: State, f: Fact, t: ThreadId)
    requires !OpensThread(f) && !f.SubAgentThreadStarted?
    ensures AttachmentIn(Ingest(s, f).state, t) == AttachmentIn(s, t)
    ensures MetadataOf(Ingest(s, f).state, t) == MetadataOf(s, t)
  {
    if !f.Initialize? {
      ContextsUntouched(s, f);
    }
  }

  /** What the reducer knows of a thread is its history: the connection and the description it was opened or spawned
      with. */
  lemma {:induction false} ThreadsAreHistory(facts: seq<Fact>, t: ThreadId)
    ensures AttachmentIn(After(facts), t) == AttachmentOf(facts, t)
    ensures MetadataOf(After(facts), t) == DescriptionOf(facts, t)
    decreases |facts|
  {
    if facts != [] {
      var front, f := facts[..|facts| - 1], facts[|facts| - 1];
      ThreadsAreHistory(front, t);
      if OpensThread(f) {
        ConnectionsAreHistory(front, f.key.connection);
        OpenStep(After(front), f, t);
      } else if f.SubAgentThreadStarted? {
        if f.start.parent.Some? {
          ThreadsAreHistory(front, f.start.parent.value);
        }
        SpawnStep(After(front), f, t);
      } else {
        OtherStep(After(front), f, t);
      }
    }
  }

  /** The client and the description that an event of an attached thread carries. */
  function ContextOf(facts: seq<Fact>, t: ThreadId): Option<Context> {
    var c := AttachmentOf(facts, t);
    if c.None? || ClientOf(facts, c.value).None? || DescriptionOf(facts, t).None? then None
    else Some(Context(ClientOf(facts, c.value).value, DescriptionOf(facts, t).value))
  }

  /** In every run the context of a thread is its history, and it is there exactly for attached threads. */
  lemma ContextIsHistory(facts: seq<Fact>, t: ThreadId)
    ensures ThreadContext(After(facts), t) == ContextOf(facts, t)
    ensures ContextOf(facts, t).Some? <==> AttachmentOf(facts, t).Some?
  {
    ThreadsAreHistory(facts, t);
    if AttachmentOf(facts, t).Some? {
      ConnectionsAreHistory(facts, AttachmentOf(facts, t).value);
    }
    LookupFailsOnlyForUnattachedThreads(facts, t);
  }

  // ---------------------------------------------------------------- chains of subagents

  predicate AttachedTo(s: State, t: ThreadId, c: ConnectionId) {
    t in s.threads && s.threads[t].connection == Some(c)
  }

  /** The facts spawn the threads of the chain one after the other, each from the one before it, with any
      other facts in between that neither open a thread of the chain nor spawn one out of turn. */
  predicate SpawnsChain(facts: seq<Fact>, chain: seq<ThreadId>, spawned: nat)
    requires 1 <= spawned <= |chain|
    decreases |facts|
  {
    if facts == [] then spawned == |chain|
    else
      var f := facts[0];
      if f.SubAgentThreadStarted? && f.start.threadId in chain[spawned..] then
        && f.start.threadId == chain[spawned]
        && f.start.parent == Some(chain[spawned - 1])
        && SpawnsChain(facts[1..], chain, spawned + 1)
      else
        && !(OpensThread(f) && f.response.thread.id in chain)
        && SpawnsChain(facts[1..], chain, spawned)
  }

  predicate Distinct(chain: seq<ThreadId>) {
    forall i, j | 0 <= i < j < |chain| :: chain[i] != chain[j]
  }

  /** A run with one fact put before it. */
  lemma {:induction false} ReplayAfter(s: State, f: Fact, facts: seq<Fact>)
    ensures var first := Ingest(s, f);
            var rest := Replay(first.state, facts);
            Replay(s, [f] + facts) == Effect(rest.state, first.out + rest.out)
    decreases |facts|
  {
    var first := Ingest(s, f);
    if facts == [] {
      ReplayStep(s, [], f);
      assert [f] + facts == [] + [f];
      Regroup(first.out, [], []);
    } else {
      var front, last := facts[..|facts| - 1], facts[|facts| - 1];
      ReplayAfter(s, f, front);
      ReplayStep(s, [f] + front, last);
      assert [f] + facts == [f] + front + [last];
      Regroup(first.out, Replay(first.state, front).out, Ingest(Replay(first.state, front).state, last).out);
    }
  }

  /** A run read from the front. */
  lemma ReplayFirst(s: State, facts: seq<Fact>)
    requires facts != []
    ensures Replay(s, facts).state == Replay(Ingest(s, facts[0]).state, facts[1..]).state
    ensures Replay(s, facts).out == Ingest(s, facts[0]).out + Replay(Ingest(s, facts[0]).state, facts[1..]).out
  {
    ReplayAfter(s, facts[0], facts[1..]);
    assert facts == [facts[0]] + facts[1..];
  }

  lemma Regroup(a: seq<Event>, b: seq<Event>, c: seq<Event>)
    ensures a + b + c == a + (b + c)
    ensures [] + a == a == a + []
  {
  }

  lemma AttachmentStays(s: State, f: Fact, t: ThreadId, c: ConnectionId)
    requires AttachedTo(s, t, c) && !(OpensThread(f) && f.response.thread.id == t)
    ensures AttachedTo(Ingest(s, f).state, t, c)
  {
    if !f.Initialize? && !OpensThread(f) && !f.SubAgentThreadStarted? {
      ContextsUntouched(s, f);
    }
  }

  lemma UnknownStays(s: State, f: Fact, t: ThreadId)
    requires t !in s.threads && !(OpensThread(f) && f.response.thread.id == t)
    requires !(f.SubAgentThreadStarted? && f.start.threadId == t)
    ensures t !in Ingest(s, f).state.threads
  {
    if !f.Initialize? && !OpensThread(f) && !f.SubAgentThreadStarted? {
      ContextsUntouched(s, f);
    }
  }

  ghost predicate ChainState(s: State, chain: seq<ThreadId>, spawned: nat, c: ConnectionId)
    requires spawned <= |chain|
  {
    && (forall i | 0 <= i < spawned :: AttachedTo(s, chain[i], c))
    && (forall i | spawned <= i < |chain| :: chain[i] !in s.threads)
  }

  /** A chain of newly spawned subagents of any length, none of them opened in between, inherits the
      connection its root is attached to, whatever else happens meanwhile. */
  lemma {:induction false} ChainInheritsConnection(s: State, facts: seq<Fact>, chain: seq<ThreadId>, spawned: nat,
                                                   c: ConnectionId)
    requires Distinct(chain) && 1 <= spawned <= |chain|
    requires ChainState(s, chain, spawned, c) && SpawnsChain(facts, chain, spawned)
    ensures forall i | 0 <= i < |chain| :: AttachedTo(Replay(s, facts).state, chain[i], c)
    decreases |facts|
  {
    if facts != [] {
      var f, after := facts[0], Ingest(s, facts[0]).state;
      ReplayFirst(s, facts);
      var spawns := f.SubAgentThreadStarted? && f.start.threadId in chain[spawned..];
      assert OpensThread(f) ==> forall i | 0 <= i < |chain| :: chain[i] != f.response.thread.id;
      forall i | 0 <= i < spawned ensures AttachedTo(after, chain[i], c) {
        AttachmentStays(s, f, chain[i], c);
      }
      var next := if spawns then spawned + 1 else spawned;
      if spawns {
        assert AttachedTo(s, chain[spawned - 1], c);
        assert AttachedTo(after, chain[spawned], c);
      }
      forall i | next <= i < |chain| ensures chain[i] !in after.threads {
        assert chain[i] == chain[spawned..][i - spawned];
        UnknownStays(s, f, chain[i]);
      }
      ChainInheritsConnection(after, facts[1..], chain, next, c);
    }
  }
}
