/** Counting over whole runs of the reducer: turn events against the facts that complete a turn, tool counts
    against completed items, steer counts against accepted steers. */
module ReducerTurns {
  import opened Options
  import opened AnalyticsTypes
  import opened Reducer
  import DiffSummary

  function One(b: bool): nat {
    if b then 1 else 0
  }

  function TurnEvents(out: seq<Event>, t: TurnId): nat {
    if out == [] then 0
    else
      var last := out[|out| - 1];
      TurnEvents(out[..|out| - 1], t) + One(last.TurnEvent? && last.turn.turnId == t)
  }

  lemma {:induction false} TurnEventsAppend(a: seq<Event>, b: seq<Event>, t: TurnId)
    ensures TurnEvents(a + b, t) == TurnEvents(a, t) + TurnEvents(b, t)
    decreases |b|
  {
    if b == [] {
      assert a + b == a;
    } else {
      assert (a + b)[..|a + b| - 1] == a + b[..|b| - 1];
      TurnEventsAppend(a, b[..|b| - 1], t);
    }
  }

  lemma {:induction false} NoTurnEvents(out: seq<Event>, t: TurnId)
    requires forall e <- out :: !e.TurnEvent?
    ensures TurnEvents(out, t) == 0
    decreases |out|
  {
    if out != [] {
      NoTurnEvents(out[..|out| - 1], t);
    }
  }

  // ---------------------------------------------------------------- turn events

  /** The four facts a turn event needs. */
  datatype Part = StartPart | ConfigPart | ProfilePart | CompletionPart

  /** A start response whose request is stored. */
  predicate MatchedStart(s: State, f: Fact, t: TurnId) {
    && f.ClientResponse? && f.response == TurnStartResponse(t)
    && f.key in s.requests && s.requests[f.key].PendingTurnStart?
  }

  predicate Supplies(s: State, f: Fact, part: Part, t: TurnId) {
    match part
    case StartPart => MatchedStart(s, f, t)
    case ConfigPart => f.TurnResolvedConfig? && f.config.turnId == t
    case ProfilePart => f.TurnProfile? && f.turnId == t
    case CompletionPart => f.TurnCompleted? && f.turnId == t
  }

  /** How often a run supplied a part for a turn. */
  function Supplied(facts: seq<Fact>, part: Part, t: TurnId): nat {
    if facts == [] then 0
    else
      var front := facts[..|facts| - 1];
      Supplied(front, part, t) + One(Supplies(After(front), facts[|facts| - 1], part, t))
  }

  predicate TurnHas(turn: TurnState, part: Part) {
    match part
    case StartPart => turn.connection.Some?
    case ConfigPart => turn.config.Some?
    case ProfilePart => turn.profile.Some?
    case CompletionPart => turn.completed.Some?
  }

  predicate Has(s: State, part: Part, t: TurnId) {
    t in s.turns && TurnHas(s.turns[t], part)
  }

  lemma EmitConsumes(s: State, u: TurnId, turn: TurnState, part: Part, t: TurnId)
    ensures var e := MaybeEmitTurn(PutTurn(s, u, turn), u);
            TurnEvents(e.out, t) + One(Has(e.state, part, t))
                <= One(if t == u then TurnHas(turn, part) else Has(s, part, t))
  {
    var e := MaybeEmitTurn(PutTurn(s, u, turn), u);
    if e.out != [] {
      var first := [TurnEvent(TurnParams(PutTurn(s, u, turn), u, turn))];
      TurnEventsAppend(first, AcceptedLines(u, turn), t);
      NoTurnEvents(AcceptedLines(u, turn), t);
      assert first[..0] == [];
    } else {
      NoTurnEvents(e.out, t);
    }
  }

  /** What a step emits for a turn is paid for by the parts that were there or that it brought. */
  predicate Consumes(s: State, e: Effect, part: Part, t: TurnId, brought: bool) {
    TurnEvents(e.out, t) + One(Has(e.state, part, t)) <= One(Has(s, part, t)) + One(brought)
  }

  function StartedTurn(s: State, key: RequestKey, u: TurnId, request: RequestState): TurnState {
    TurnOf(s, u).(connection := Some(key.connection), threadId := Some(request.threadId),
                  images := Some(request.images))
  }

  lemma MatchedStartEmits(s: State, key: RequestKey, u: TurnId)
    requires key in s.requests && s.requests[key].PendingTurnStart?
    ensures IngestTurnStart(s, key, u)
         == MaybeEmitTurn(PutTurn(TakeRequest(s, key), u, StartedTurn(s, key, u, s.requests[key])), u)
  {
  }

  lemma MatchedStartConsumes(s: State, key: RequestKey, u: TurnId, part: Part, t: TurnId)
    requires key in s.requests && s.requests[key].PendingTurnStart?
    ensures Consumes(s, IngestTurnStart(s, key, u), part, t, part == StartPart && t == u)
  {
    MatchedStartEmits(s, key, u);
    EmitConsumes(TakeRequest(s, key), u, StartedTurn(s, key, u, s.requests[key]), part, t);
  }

  lemma StartConsumes(s: State, key: RequestKey, u: TurnId, part: Part, t: TurnId)
    ensures Consumes(s, IngestTurnStart(s, key, u), part, t,
                     Supplies(s, ClientResponse(key, TurnStartResponse(u)), part, t))
  {
    if key in s.requests && s.requests[key].PendingTurnStart? {
      MatchedStartConsumes(s, key, u, part, t);
    } else {
      assert IngestTurnStart(s, key, u).out == [];
    }
  }

  lemma ConfigConsumes(s: State, config: TurnConfig, part: Part, t: TurnId)
    ensures Consumes(s, IngestConfig(s, config), part, t, Supplies(s, TurnResolvedConfig(config), part, t))
  {
    EmitConsumes(s, config.turnId, TurnOf(s, config.turnId).(threadId := Some(config.threadId),
                 images := Some(config.images), config := Some(config)), part, t);
  }

  lemma UsageConsumes(s: State, u: TurnId, threadId: ThreadId, usage: string, part: Part, t: TurnId)
    ensures Consumes(s, IngestTokenUsage(s, u, threadId, usage), part, t, false)
  {
    EmitConsumes(s, u, TurnOf(s, u).(threadId := Some(threadId), tokenUsage := Some(usage)), part, t);
  }

  lemma ProfileConsumes(s: State, u: TurnId, profile: string, part: Part, t: TurnId)
    ensures Consumes(s, IngestProfile(s, u, profile), part, t, Supplies(s, TurnProfile(u, profile), part, t))
  {
    EmitConsumes(s, u, TurnOf(s, u).(profile := Some(profile)), part, t);
  }

  lemma CompletionConsumes(s: State, u: TurnId, end: TurnEnd, part: Part, t: TurnId)
    ensures Consumes(s, IngestTurnCompleted(s, u, end), part, t, Supplies(s, TurnCompleted(u, end), part, t))
  {
    EmitConsumes(s, u, TurnOf(s, u).(completed := Some(CompletedOf(end))), part, t);
  }

  predicate CanEmitTurn(f: Fact) {
    f.TurnResolvedConfig? || f.TurnTokenUsage? || f.TurnProfile? || f.TurnCompleted?
    || (f.ClientResponse? && f.response.TurnStartResponse?)
  }

  lemma OtherFactsEmitNoTurn(s: State, f: Fact)
    requires !CanEmitTurn(f)
    ensures forall e <- Ingest(s, f).out :: !e.TurnEvent?
  {
  }

  /** The other facts that change a turn. */
  predicate EditsTurn(f: Fact) {
    f.TurnStarted? || f.TurnDiffUpdated? || f.TurnCodexError? || f.ItemCompleted?
    || (f.ClientResponse? && f.response.TurnSteerResponse?)
  }

  lemma TurnsUntouched(s: State, f: Fact)
    requires !CanEmitTurn(f) && !EditsTurn(f)
    ensures Ingest(s, f).state.turns == s.turns
  {
  }

  lemma SteerSuppliesNothing(s: State, key: RequestKey, u: TurnId, part: Part, t: TurnId)
    ensures Has(IngestSteerResponse(s, key, u).state, part, t) ==> Has(s, part, t)
  {
  }

  lemma ItemSuppliesNothing(s: State, threadId: ThreadId, u: TurnId, item: ThreadItem, at: int, part: Part, t: TurnId)
    ensures Has(IngestItemCompleted(s, threadId, u, item, at).state, part, t) ==> Has(s, part, t)
  {
  }

  lemma OtherFactsSupplyNothing(s: State, f: Fact, part: Part, t: TurnId)
    requires !CanEmitTurn(f)
    ensures Has(Ingest(s, f).state, part, t) ==> Has(s, part, t)
  {
    if !EditsTurn(f) {
      TurnsUntouched(s, f);
    } else if f.ItemCompleted? {
      ItemSuppliesNothing(s, f.threadId, f.turnId, f.item, f.completedAtMs, part, t);
    } else if f.ClientResponse? {
      SteerSuppliesNothing(s, f.key, f.response.turnId, part, t);
    }
  }

  lemma OthersConsume(s: State, f: Fact, part: Part, t: TurnId)
    requires !CanEmitTurn(f)
    ensures Consumes(s, Ingest(s, f), part, t, Supplies(s, f, part, t))
  {
    OtherFactsEmitNoTurn(s, f);
    NoTurnEvents(Ingest(s, f).out, t);
    OtherFactsSupplyNothing(s, f, part, t);
  }

  lemma ResponseConsumes(s: State, f: Fact, part: Part, t: TurnId)
    requires f.ClientResponse? && f.response.TurnStartResponse?
    ensures Consumes(s, Ingest(s, f), part, t, Supplies(s, f, part, t))
  {
    StartConsumes(s, f.key, f.response.turnId, part, t);
  }

  lemma ConfigOrUsageConsumes(s: State, f: Fact, part: Part, t: TurnId)
    requires f.TurnResolvedConfig? || f.TurnTokenUsage?
    ensures Consumes(s, Ingest(s, f), part, t, Supplies(s, f, part, t))
  {
    if f.TurnResolvedConfig? {
      ConfigConsumes(s, f.config, part, t);
    } else {
      UsageConsumes(s, f.turnId, f.threadId, f.usage, part, t);
    }
  }

  lemma ProfileOrEndConsumes(s: State, f: Fact, part: Part, t: TurnId)
    requires f.TurnProfile? || f.TurnCompleted?
    ensures Consumes(s, Ingest(s, f), part, t, Supplies(s, f, part, t))
  {
    if f.TurnProfile? {
      ProfileConsumes(s, f.turnId, f.profile, part, t);
    } else {
      CompletionConsumes(s, f.turnId, f.end, part, t);
    }
  }

  /** One fact can emit a turn's event only by using up the parts that are there or that it brings. */
  lemma StepConsumes(s: State, f: Fact, part: Part, t: TurnId)
    ensures Consumes(s, Ingest(s, f), part, t, Supplies(s, f, part, t))
  {
    if !CanEmitTurn(f) {
      OthersConsume(s, f, part, t);
    } else if f.ClientResponse? {
      ResponseConsumes(s, f, part, t);
    } else if f.TurnProfile? || f.TurnCompleted? {
      ProfileOrEndConsumes(s, f, part, t);
    } else {
      ConfigOrUsageConsumes(s, f, part, t);
    }
  }

  /** In every run and for every turn, the turn events never outnumber the matched start responses, the
      resolved configs, the profiles or the completions for that turn, and a part still waiting in the
      turn's state has not been used: each emission takes a new instance of all four. */
  lemma {:induction false} EmissionsConsumeParts(facts: seq<Fact>, part: Part, t: TurnId)
    ensures TurnEvents(Replay(Empty, facts).out, t) + One(Has(After(facts), part, t)) <= Supplied(facts, part, t)
    decreases |facts|
  {
    if facts != [] {
      var front, f := facts[..|facts| - 1], facts[|facts| - 1];
      EmissionsConsumeParts(front, part, t);
      StepConsumes(After(front), f, part, t);
      TurnEventsAppend(Replay(Empty, front).out, Ingest(After(front), f).out, t);
    }
  }

  // ---------------------------------------------------------------- tool counts and steer counts

  function CategorySum(c: ToolCounts): nat {
    c.shellCommand + c.fileChange + c.mcpToolCall + c.dynamicToolCall + c.subagentToolCall + c.webSearch
        + c.imageGeneration
  }

  /** The completion of a tracked item of a live turn. */
  predicate CountsItem(s: State, f: Fact, t: TurnId) {
    f.ItemCompleted? && f.turnId == t && IsTracked(f.item) && t in s.turns
  }

  /** A steer response naming the turn whose request is stored. */
  predicate AcceptsSteer(s: State, f: Fact, t: TurnId) {
    && f.ClientResponse? && f.response == TurnSteerResponse(t)
    && f.key in s.requests && s.requests[f.key].PendingTurnSteer?
  }

  /** The counters of a turn and its last diff. */
  datatype Counters = Counters(tools: ToolCounts, steers: nat, diff: Option<string>)

  function CountersOf(turn: TurnState): Counters {
    Counters(turn.toolCounts, turn.steerCount, turn.latestDiff)
  }

  function NextDiff(diff: Option<string>, f: Fact, t: TurnId): Option<string> {
    if f.TurnDiffUpdated? && f.turnId == t then Some(f.diff) else diff
  }

  function Tallied(c: ToolCounts, s: State, f: Fact, t: TurnId): ToolCounts {
    if CountsItem(s, f, t) then Record(c, f.item) else c
  }

  datatype ToolKind = ShellKind | FileKind | McpKind | DynamicKind | SubagentKind | SearchKind | ImageKind

  function KindOf(item: ThreadItem): Option<ToolKind> {
    match item
    case CommandExecution(_, _, _) => Some(ShellKind)
    case FileChange(_, _, _) => Some(FileKind)
    case McpToolCall(_, _, _) => Some(McpKind)
    case DynamicToolCall(_, _, _) => Some(DynamicKind)
    case CollabAgentToolCall(_, _, _) => Some(SubagentKind)
    case WebSearch(_, _) => Some(SearchKind)
    case ImageGeneration(_, _, _) => Some(ImageKind)
    case UntrackedItem => None
  }

  function Category(c: ToolCounts, kind: ToolKind): nat {
    match kind
    case ShellKind => c.shellCommand
    case FileKind => c.fileChange
    case McpKind => c.mcpToolCall
    case DynamicKind => c.dynamicToolCall
    case SubagentKind => c.subagentToolCall
    case SearchKind => c.webSearch
    case ImageKind => c.imageGeneration
  }

  lemma EmitKeepsCounters(s: State, u: TurnId, turn: TurnState, t: TurnId)
    requires CountersOf(turn) == CountersOf(TurnOf(s, u))
    requires t in MaybeEmitTurn(PutTurn(s, u, turn), u).state.turns
    ensures CountersOf(MaybeEmitTurn(PutTurn(s, u, turn), u).state.turns[t]) == CountersOf(TurnOf(s, t))
  {
  }

  lemma StartKeepsCounters(s: State, key: RequestKey, u: TurnId, t: TurnId)
    requires t in IngestTurnStart(s, key, u).state.turns
    ensures CountersOf(IngestTurnStart(s, key, u).state.turns[t]) == CountersOf(TurnOf(s, t))
  {
    if key in s.requests && s.requests[key].PendingTurnStart? {
      var s1 := TakeRequest(s, key);
      EmitKeepsCounters(s1, u, TurnOf(s1, u).(connection := Some(key.connection),
                                              threadId := Some(s.requests[key].threadId),
                                              images := Some(s.requests[key].images)), t);
    }
  }

  lemma PartsKeepCounters(s: State, f: Fact, t: TurnId)
    requires CanEmitTurn(f) && t in Ingest(s, f).state.turns
    ensures CountersOf(Ingest(s, f).state.turns[t]) == CountersOf(TurnOf(s, t))
  {
    if f.TurnResolvedConfig? {
      var turn := TurnOf(s, f.config.turnId);
      EmitKeepsCounters(s, f.config.turnId, turn.(threadId := Some(f.config.threadId), images := Some(f.config.images),
                        config := Some(f.config)), t);
    } else if f.TurnTokenUsage? {
      EmitKeepsCounters(s, f.turnId, TurnOf(s, f.turnId).(threadId := Some(f.threadId), tokenUsage := Some(f.usage)),
                        t);
    } else if f.TurnProfile? {
      EmitKeepsCounters(s, f.turnId, TurnOf(s, f.turnId).(profile := Some(f.profile)), t);
    } else if f.TurnCompleted? {
      EmitKeepsCounters(s, f.turnId, TurnOf(s, f.turnId).(completed := Some(CompletedOf(f.end))), t);
    } else {
      StartKeepsCounters(s, f.key, f.response.turnId, t);
    }
  }

  lemma RecordCounts(c: ToolCounts, item: ThreadItem, kind: ToolKind)
    ensures Record(c, item).total == c.total + One(IsTracked(item))
    ensures Category(Record(c, item), kind) == Category(c, kind) + One(KindOf(item) == Some(kind))
  {
  }

  lemma ItemTurns(s: State, threadId: ThreadId, u: TurnId, item: ThreadItem, at: int)
    ensures IngestItemCompleted(s, threadId, u, item, at).state.turns
         == if IsTracked(item) && u in s.turns
            then s.turns[u := s.turns[u].(toolCounts := Record(s.turns[u].toolCounts, item))] else s.turns
  {
  }

  lemma ItemCounts(s: State, f: Fact, t: TurnId)
    requires f.ItemCompleted? && t in Ingest(s, f).state.turns
    ensures var before := CountersOf(TurnOf(s, t));
            CountersOf(Ingest(s, f).state.turns[t]) == before.(tools := Tallied(before.tools, s, f, t))
  {
    ItemTurns(s, f.threadId, f.turnId, f.item, f.completedAtMs);
  }

  lemma SteerCounts(s: State, key: RequestKey, u: TurnId, t: TurnId)
    requires t in IngestSteerResponse(s, key, u).state.turns
    ensures var before := CountersOf(TurnOf(s, t));
            var n := One(AcceptsSteer(s, ClientResponse(key, TurnSteerResponse(u)), t));
            CountersOf(IngestSteerResponse(s, key, u).state.turns[t]) == before.(steers := before.steers + n)
  {
  }

  lemma EditCounts(s: State, f: Fact, t: TurnId)
    requires EditsTurn(f) && !f.ItemCompleted? && t in Ingest(s, f).state.turns
    ensures var before := CountersOf(TurnOf(s, t));
            CountersOf(Ingest(s, f).state.turns[t])
            == before.(steers := before.steers + One(AcceptsSteer(s, f, t)), diff := NextDiff(before.diff, f, t))
  {
    if f.ClientResponse? {
      SteerCounts(s, f.key, f.response.turnId, t);
    }
  }

  lemma OtherCounts(s: State, f: Fact, t: TurnId)
    requires !CanEmitTurn(f) && !f.ItemCompleted? && t in Ingest(s, f).state.turns
    ensures var before := CountersOf(TurnOf(s, t));
            CountersOf(Ingest(s, f).state.turns[t])
            == before.(steers := before.steers + One(AcceptsSteer(s, f, t)), diff := NextDiff(before.diff, f, t))
  {
    if EditsTurn(f) {
      EditCounts(s, f, t);
    } else {
      TurnsUntouched(s, f);
    }
  }

  /** What one fact does to the counters of a turn that is live afterwards. */
  lemma StepCounts(s: State, f: Fact, t: TurnId)
    requires t in Ingest(s, f).state.turns
    ensures var before := CountersOf(TurnOf(s, t));
            CountersOf(Ingest(s, f).state.turns[t])
            == Counters(Tallied(before.tools, s, f, t), before.steers + One(AcceptsSteer(s, f, t)),
                        NextDiff(before.diff, f, t))
  {
    if CanEmitTurn(f) {
      PartsKeepCounters(s, f, t);
    } else if f.ItemCompleted? {
      ItemCounts(s, f, t);
    } else {
      OtherCounts(s, f, t);
    }
  }

  /** Completions of tracked items since the turn's current state was created. */
  function ItemsSince(facts: seq<Fact>, t: TurnId): nat {
    if facts == [] || t !in After(facts).turns then 0
    else
      var front := facts[..|facts| - 1];
      ItemsSince(front, t) + One(CountsItem(After(front), facts[|facts| - 1], t))
  }

  /** Steers accepted for the turn since its current state was created. */
  function SteersSince(facts: seq<Fact>, t: TurnId): nat {
    if facts == [] || t !in After(facts).turns then 0
    else
      var front := facts[..|facts| - 1];
      SteersSince(front, t) + One(AcceptsSteer(After(front), facts[|facts| - 1], t))
  }

  function ToolEvents(out: seq<Event>, t: TurnId): nat {
    if out == [] then 0
    else
      var last := out[|out| - 1];
      ToolEvents(out[..|out| - 1], t) + One(last.ToolItemEvent? && last.tool.key.turnId == t)
  }

  /** Tool-item events emitted for the turn since its current state was created. */
  function ToolEventsSince(facts: seq<Fact>, t: TurnId): nat {
    if facts == [] || t !in After(facts).turns then 0
    else
      var front := facts[..|facts| - 1];
      ToolEventsSince(front, t) + ToolEvents(Ingest(After(front), facts[|facts| - 1]).out, t)
  }

  lemma {:induction false} NoToolEvents(out: seq<Event>, t: TurnId)
    requires forall e <- out :: !e.ToolItemEvent?
    ensures ToolEvents(out, t) == 0
    decreases |out|
  {
    if out != [] {
      NoToolEvents(out[..|out| - 1], t);
    }
  }

  lemma OnlyItemsEmitTools(s: State, f: Fact)
    requires !f.ItemCompleted?
    ensures forall e <- Ingest(s, f).out :: !e.ToolItemEvent?
  {
  }

  /** A step emits a tool-item event for a turn only when it counts an item for it. */
  lemma StepToolEvents(s: State, f: Fact, t: TurnId)
    ensures ToolEvents(Ingest(s, f).out, t) <= One(CountsItem(s, f, t))
  {
    if f.ItemCompleted? {
      var out := Ingest(s, f).out;
      assert |out| <= 1;
      assert |out| == 1 ==> out[..0] == [];
    } else {
      OnlyItemsEmitTools(s, f);
      NoToolEvents(Ingest(s, f).out, t);
    }
  }

  predicate CountsKind(s: State, f: Fact, t: TurnId, kind: ToolKind) {
    CountsItem(s, f, t) && KindOf(f.item) == Some(kind)
  }

  /** Completions of tracked items of one kind since the turn's current state was created. */
  function KindSince(facts: seq<Fact>, t: TurnId, kind: ToolKind): nat {
    if facts == [] || t !in After(facts).turns then 0
    else
      var front := facts[..|facts| - 1];
      KindSince(front, t, kind) + One(CountsKind(After(front), facts[|facts| - 1], t, kind))
  }

  lemma TalliedCounts(c: ToolCounts, s: State, f: Fact, t: TurnId, kind: ToolKind)
    ensures Tallied(c, s, f, t).total == c.total + One(CountsItem(s, f, t))
    ensures Category(Tallied(c, s, f, t), kind) == Category(c, kind) + One(CountsKind(s, f, t, kind))
  {
    if CountsItem(s, f, t) {
      RecordCounts(c, f.item, kind);
    }
  }

  lemma {:induction false} LiveKind(facts: seq<Fact>, t: TurnId, kind: ToolKind)
    requires t in After(facts).turns
    ensures Category(CountersOf(After(facts).turns[t]).tools, kind) == KindSince(facts, t, kind)
    decreases |facts|
  {
    var front, f := facts[..|facts| - 1], facts[|facts| - 1];
    StepCounts(After(front), f, t);
    TalliedCounts(TurnOf(After(front), t).toolCounts, After(front), f, t, kind);
    if t in After(front).turns {
      LiveKind(front, t, kind);
    }
  }

  lemma {:induction false} LiveTotal(facts: seq<Fact>, t: TurnId)
    requires t in After(facts).turns
    ensures CountersOf(After(facts).turns[t]).tools.total == ItemsSince(facts, t)
    decreases |facts|
  {
    var front, f := facts[..|facts| - 1], facts[|facts| - 1];
    StepCounts(After(front), f, t);
    TalliedCounts(TurnOf(After(front), t).toolCounts, After(front), f, t, ShellKind);
    if t in After(front).turns {
      LiveTotal(front, t);
    }
  }

  /** The completions of a period, kind by kind. */
  function ToolsSince(facts: seq<Fact>, t: TurnId): ToolCounts {
    ToolCounts(ItemsSince(facts, t), KindSince(facts, t, ShellKind), KindSince(facts, t, FileKind),
               KindSince(facts, t, McpKind), KindSince(facts, t, DynamicKind), KindSince(facts, t, SubagentKind),
               KindSince(facts, t, SearchKind), KindSince(facts, t, ImageKind))
  }

  lemma OneKindEach(s: State, f: Fact, t: TurnId)
    ensures One(CountsItem(s, f, t))
         == One(CountsKind(s, f, t, ShellKind)) + One(CountsKind(s, f, t, FileKind)) + One(CountsKind(s, f, t, McpKind))
            + One(CountsKind(s, f, t, DynamicKind)) + One(CountsKind(s, f, t, SubagentKind))
            + One(CountsKind(s, f, t, SearchKind)) + One(CountsKind(s, f, t, ImageKind))
  {
  }

  lemma {:induction false} KindsAddUp(facts: seq<Fact>, t: TurnId)
    ensures ToolsSince(facts, t).total == CategorySum(ToolsSince(facts, t))
    decreases |facts|
  {
    if facts != [] && t in After(facts).turns {
      KindsAddUp(facts[..|facts| - 1], t);
      OneKindEach(After(facts[..|facts| - 1]), facts[|facts| - 1], t);
    }
  }

  lemma {:induction false} LiveSteers(facts: seq<Fact>, t: TurnId)
    requires t in After(facts).turns
    ensures CountersOf(After(facts).turns[t]).steers == SteersSince(facts, t)
    decreases |facts|
  {
    var front, f := facts[..|facts| - 1], facts[|facts| - 1];
    StepCounts(After(front), f, t);
    if t in After(front).turns {
      LiveSteers(front, t);
    }
  }

  lemma {:induction false} ToolEventsWithinItems(facts: seq<Fact>, t: TurnId)
    ensures ToolEventsSince(facts, t) <= ItemsSince(facts, t)
    decreases |facts|
  {
    if facts != [] && t in After(facts).turns {
      var front, f := facts[..|facts| - 1], facts[|facts| - 1];
      StepToolEvents(After(front), f, t);
      ToolEventsWithinItems(front, t);
    }
  }

  /** The last diff noted for the turn since its current state was created. */
  function DiffSince(facts: seq<Fact>, t: TurnId): Option<string> {
    if facts == [] || t !in After(facts).turns then None
    else NextDiff(DiffSince(facts[..|facts| - 1], t), facts[|facts| - 1], t)
  }

  lemma {:induction false} LiveDiff(facts: seq<Fact>, t: TurnId)
    requires t in After(facts).turns
    ensures CountersOf(After(facts).turns[t]).diff == DiffSince(facts, t)
    decreases |facts|
  {
    var front, f := facts[..|facts| - 1], facts[|facts| - 1];
    StepCounts(After(front), f, t);
    if t in After(front).turns {
      LiveDiff(front, t);
    }
  }

  function ExpectedCounters(facts: seq<Fact>, t: TurnId): Counters {
    Counters(ToolsSince(facts, t), SteersSince(facts, t), DiffSince(facts, t))
  }

  lemma LiveTools(facts: seq<Fact>, t: TurnId)
    requires t in After(facts).turns
    ensures After(facts).turns[t].toolCounts == ToolsSince(facts, t)
  {
    LiveTotal(facts, t);
    LiveKind(facts, t, ShellKind);
    LiveKind(facts, t, FileKind);
    LiveKind(facts, t, McpKind);
    LiveKind(facts, t, DynamicKind);
    LiveKind(facts, t, SubagentKind);
    LiveKind(facts, t, SearchKind);
    LiveKind(facts, t, ImageKind);
  }

  /** For every live turn of every run, each tool count is the number of tracked items of its kind completed since
      the turn's state was created, the total is that of all kinds and their sum, it is at least the number of
      tool-item events emitted for the turn in that period, and the steer count is the number of steers accepted
      for it in that period; its diff is the last one noted for it. */
  lemma LiveTurnCounts(facts: seq<Fact>, t: TurnId)
    requires t in After(facts).turns
    ensures CountersOf(After(facts).turns[t]) == ExpectedCounters(facts, t)
    ensures ToolEventsSince(facts, t) <= ToolsSince(facts, t).total == CategorySum(ToolsSince(facts, t))
  {
    LiveTools(facts, t);
    KindsAddUp(facts, t);
    LiveSteers(facts, t);
    LiveDiff(facts, t);
    ToolEventsWithinItems(facts, t);
  }

  /** What is reported beside a turn's event: the lines its last diff adds and deletes, if any. */
  function LinesOf(turn: TurnEventParams, diff: Option<string>): seq<Event> {
    if diff.None? then []
    else
      var scan := DiffSummary.ScanDiff(diff.value);
      if scan.added == [] && scan.deleted == 0 then []
      else [AcceptedLinesEvent(turn.turnId, turn.threadId, turn.details.model, |scan.added|, scan.deleted)]
  }

  /** The whole output of a step that emits a turn with these counters. */
  predicate Reported(out: seq<Event>, turn: TurnEventParams, c: Counters) {
    turn.toolCounts == c.tools && turn.steerCount == c.steers && out == [TurnEvent(turn)] + LinesOf(turn, c.diff)
  }

  /** A step either emits nothing, or a turn first, with the counters it had before. */
  predicate ReportsTurn(out: seq<Event>, s: State) {
    out == [] || (out[0].TurnEvent? && Reported(out, out[0].turn, CountersOf(TurnOf(s, out[0].turn.turnId))))
  }

  lemma EmitCarriesCounters(s: State, u: TurnId, turn: TurnState)
    requires CountersOf(turn) == CountersOf(TurnOf(s, u))
    ensures ReportsTurn(MaybeEmitTurn(PutTurn(s, u, turn), u).out, s)
  {
  }

  lemma StartCarriesCounters(s: State, key: RequestKey, u: TurnId)
    ensures ReportsTurn(IngestTurnStart(s, key, u).out, s)
  {
    if key in s.requests && s.requests[key].PendingTurnStart? {
      var s1 := TakeRequest(s, key);
      EmitCarriesCounters(s1, u, TurnOf(s1, u).(connection := Some(key.connection),
                                                threadId := Some(s.requests[key].threadId),
                                                images := Some(s.requests[key].images)));
    }
  }

  lemma PartsCarryCounters(s: State, f: Fact)
    requires CanEmitTurn(f)
    ensures ReportsTurn(Ingest(s, f).out, s)
  {
    if f.TurnResolvedConfig? {
      var turn := TurnOf(s, f.config.turnId);
      EmitCarriesCounters(s, f.config.turnId, turn.(threadId := Some(f.config.threadId),
                                                    images := Some(f.config.images), config := Some(f.config)));
    } else if f.TurnTokenUsage? {
      EmitCarriesCounters(s, f.turnId, TurnOf(s, f.turnId).(threadId := Some(f.threadId), tokenUsage := Some(f.usage)));
    } else if f.TurnProfile? {
      EmitCarriesCounters(s, f.turnId, TurnOf(s, f.turnId).(profile := Some(f.profile)));
    } else if f.TurnCompleted? {
      EmitCarriesCounters(s, f.turnId, TurnOf(s, f.turnId).(completed := Some(CompletedOf(f.end))));
    } else {
      StartCarriesCounters(s, f.key, f.response.turnId);
    }
  }

  lemma OnlyPartsReportLines(s: State, f: Fact)
    requires !CanEmitTurn(f)
    ensures forall e <- Ingest(s, f).out :: !e.TurnEvent? && !e.AcceptedLinesEvent?
  {
  }

  lemma StepCarriesCounters(s: State, f: Fact, e: Event)
    requires e in Ingest(s, f).out && (e.TurnEvent? || e.AcceptedLinesEvent?)
    ensures ReportsTurn(Ingest(s, f).out, s)
  {
    if CanEmitTurn(f) {
      PartsCarryCounters(s, f);
    } else {
      OnlyPartsReportLines(s, f);
    }
  }

  lemma CountersBefore(facts: seq<Fact>, t: TurnId)
    ensures CountersOf(TurnOf(After(facts), t)) == ExpectedCounters(facts, t)
  {
    if t in After(facts).turns {
      LiveTurnCounts(facts, t);
    }
  }

  /** A fact that after any run emits a turn event, or the lines of one, emits exactly one: it counts the items
      completed and the steers accepted since the turn's state was created, and the lines of the last diff noted
      for the turn in that period follow it. */
  lemma TurnEventReportsCounts(facts: seq<Fact>, f: Fact, e: Event)
    requires e in Ingest(After(facts), f).out && (e.TurnEvent? || e.AcceptedLinesEvent?)
    ensures var out := Ingest(After(facts), f).out;
            out[0].TurnEvent? && Reported(out, out[0].turn, ExpectedCounters(facts, out[0].turn.turnId))
  {
    StepCarriesCounters(After(facts), f, e);
    CountersBefore(facts, Ingest(After(facts), f).out[0].turn.turnId);
  }

  lemma LinesOfPatches(turn: TurnEventParams, patches: seq<DiffSummary.FilePatch>)
    requires DiffSummary.ValidPatches(patches)
    ensures var added, deleted := |DiffSummary.AddedInPatches(patches)|, DiffSummary.DeletedInPatches(patches);
            LinesOf(turn, Some(DiffSummary.Text(DiffSummary.RenderPatches(patches))))
            == if added == 0 && deleted == 0 then []
               else [AcceptedLinesEvent(turn.turnId, turn.threadId, turn.details.model, added, deleted)]
  {
    DiffSummary.SummaryOfRenderedDiff(DiffSummary.Tables(c => true, (domain, value) => value), patches);
  }

  /** When the last diff noted for an emitted turn is a list of patches as git writes them, exactly their added and
      deleted lines are reported beside its event, and nothing when there are none. */
  lemma AcceptedLinesOfPatches(facts: seq<Fact>, f: Fact, turn: TurnEventParams, patches: seq<DiffSummary.FilePatch>)
    requires TurnEvent(turn) in Ingest(After(facts), f).out && DiffSummary.ValidPatches(patches)
    requires DiffSince(facts, turn.turnId) == Some(DiffSummary.Text(DiffSummary.RenderPatches(patches)))
    ensures var added, deleted := |DiffSummary.AddedInPatches(patches)|, DiffSummary.DeletedInPatches(patches);
            Ingest(After(facts), f).out
            == [TurnEvent(turn)]
               + if added == 0 && deleted == 0 then []
                 else [AcceptedLinesEvent(turn.turnId, turn.threadId, turn.details.model, added, deleted)]
  {
    TurnEventReportsCounts(facts, f, TurnEvent(turn));
    LinesOfPatches(turn, patches);
  }

  // ---------------------------------------------------------------- tool-item events per item

  function ItemEvents(out: seq<Event>, key: ToolItemKey): nat {
    if out == [] then 0
    else
      var last := out[|out| - 1];
      ItemEvents(out[..|out| - 1], key) + One(last.ToolItemEvent? && last.tool.key == key)
  }

  lemma {:induction false} ItemEventsAppend(a: seq<Event>, b: seq<Event>, key: ToolItemKey)
    ensures ItemEvents(a + b, key) == ItemEvents(a, key) + ItemEvents(b, key)
    decreases |b|
  {
    if b == [] {
      assert a + b == a;
    } else {
      assert (a + b)[..|a + b| - 1] == a + b[..|b| - 1];
      ItemEventsAppend(a, b[..|b| - 1], key);
    }
  }

  lemma {:induction false} NoItemEvents(out: seq<Event>, key: ToolItemKey)
    requires forall e <- out :: !e.ToolItemEvent?
    ensures ItemEvents(out, key) == 0
    decreases |out|
  {
    if out != [] {
      NoItemEvents(out[..|out| - 1], key);
    }
  }

  predicate StartsItem(f: Fact, key: ToolItemKey) {
    && f.ItemStarted? && IsTracked(f.item) && f.startedAtMs >= 0
    && key == ToolItemKey(f.threadId, f.turnId, f.item.id)
  }

  function ItemStarts(facts: seq<Fact>, key: ToolItemKey): nat {
    if facts == [] then 0 else ItemStarts(facts[..|facts| - 1], key) + One(StartsItem(facts[|facts| - 1], key))
  }

  lemma OtherFactsKeepStarts(s: State, f: Fact)
    requires !f.ItemStarted? && !f.ItemCompleted?
    ensures Ingest(s, f).state.itemsStarted == s.itemsStarted
  {
  }

  lemma CompletionUsesStart(s: State, threadId: ThreadId, t: TurnId, item: ThreadItem, at: int, key: ToolItemKey)
    ensures var e := IngestItemCompleted(s, threadId, t, item, at);
            ItemEvents(e.out, key) + One(key in e.state.itemsStarted) <= One(key in s.itemsStarted)
  {
    var e := IngestItemCompleted(s, threadId, t, item, at);
    if e.out != [] {
      OneItemEvent(e.out[0], key);
      assert e.out == [e.out[0]];
    }
  }

  lemma OneItemEvent(e: Event, key: ToolItemKey)
    ensures ItemEvents([e], key) == One(e.ToolItemEvent? && e.tool.key == key)
  {
    assert [e][..0] == [];
  }

  lemma StepItem(s: State, f: Fact, key: ToolItemKey)
    ensures var e := Ingest(s, f);
            ItemEvents(e.out, key) + One(key in e.state.itemsStarted)
            <= One(key in s.itemsStarted) + One(StartsItem(f, key))
  {
    if f.ItemCompleted? {
      CompletionUsesStart(s, f.threadId, f.turnId, f.item, f.completedAtMs, key);
    } else {
      OnlyItemsEmitTools(s, f);
      NoItemEvents(Ingest(s, f).out, key);
      if !f.ItemStarted? {
        OtherFactsKeepStarts(s, f);
      }
    }
  }

  /** The tool-item events for an item never outnumber its started notifications. */
  lemma {:induction false} ItemEventsBounded(facts: seq<Fact>, key: ToolItemKey)
    ensures ItemEvents(Replay(Empty, facts).out, key) + One(key in After(facts).itemsStarted) <= ItemStarts(facts, key)
    decreases |facts|
  {
    if facts != [] {
      var front, f := facts[..|facts| - 1], facts[|facts| - 1];
      ItemEventsBounded(front, key);
      StepItem(After(front), f, key);
      ItemEventsAppend(Replay(Empty, front).out, Ingest(After(front), f).out, key);
    }
  }
}
