/** The reducer as an object that updates its seven maps in place. Every method returns the events it pushes
    and is proved to do what the specification of its fact says. */
module AnalyticsReducer {
  import opened Options
  import opened AnalyticsTypes
  import opened Reducer

  predicate IsNotification(f: Fact) {
    f.ItemStarted? || f.ItemCompleted? || f.GuardianReviewCompleted? || f.TurnStarted? || f.TurnDiffUpdated?
    || f.TurnCompleted?
  }

  predicate IsTurnFact(f: Fact) {
    f.TurnResolvedConfig? || f.TurnTokenUsage? || f.TurnProfile? || f.TurnCodexError?
  }

  predicate IsCustom(f: Fact) {
    f.SubAgentThreadStarted? || f.Compaction? || f.GuardianReview? || f.PassedThrough?
  }

  class AnalyticsReducer {
    var requests: map<RequestKey, RequestState>
    var turns: map<TurnId, TurnState>
    var connections: map<ConnectionId, ClientMetadata>
    var threads: map<ThreadId, ThreadState>
    var toolItemsStartedAtMs: map<ToolItemKey, nat>
    var pendingReviews: map<RequestId, PendingReview>
    var itemReviewSummaries: map<ToolItemKey, ReviewSummary>

    ghost function View(): State
      reads this
    {
      State(requests, turns, connections, threads, toolItemsStartedAtMs, pendingReviews, itemReviewSummaries)
    }

    constructor ()
      ensures View() == Empty
    {
      requests, turns, connections, threads := map[], map[], map[], map[];
      toolItemsStartedAtMs, pendingReviews, itemReviewSummaries := map[], map[], map[];
    }

    // -------------------------------------------------------------- lookups

    method ThreadConnectionOrWarn(threadId: ThreadId) returns (r: Option<ClientMetadata>)
      ensures r == ThreadConnection(View(), threadId)
    {
      if threadId !in threads {
        return None;
      }
      var connection := threads[threadId].connection;
      if connection.None? || connection.value !in connections {
        return None;
      }
      return Some(connections[connection.value]);
    }

    method ThreadContextOrWarn(threadId: ThreadId) returns (r: Option<Context>)
      ensures r == ThreadContext(View(), threadId)
    {
      var client := ThreadConnectionOrWarn(threadId);
      if client.None? {
        return None;
      }
      var metadata := threads[threadId].metadata;
      if metadata.None? {
        return None;
      }
      return Some(Context(client.value, metadata.value));
    }

    // -------------------------------------------------------------- connections and threads

    method IngestInitialize(connection: ConnectionId, client: ClientMetadata)
      modifies this`connections
      ensures Effect(View(), []) == Reducer.IngestInitialize(old(View()), connection, client)
    {
      connections := connections[connection := client];
    }

    method EmitThreadInitialized(connection: ConnectionId, mode: InitializationMode, thread: ThreadInfo)
      returns (out: seq<Event>)
      modifies this`threads
      ensures Effect(View(), out) == OpenThread(old(View()), connection, mode, thread)
    {
      if connection !in connections {
        return [];
      }
      var metadata := ThreadMetadata(thread.sessionId, thread.threadSource, mode, thread.subagentSource, thread.parent);
      threads := threads[thread.id := ThreadState(Some(connection), Some(metadata))];
      out := [ThreadInitialized(thread.id, Some(connections[connection]), metadata, thread.details)];
    }

    method IngestSubagentThreadStarted(start: SubAgentStart) returns (out: seq<Event>)
      modifies this`threads
      ensures Effect(View(), out) == IngestSubAgent(old(View()), start)
    {
      var parentConnection := None;
      if start.parent.Some? && start.parent.value in threads {
        parentConnection := threads[start.parent.value].connection;
      }
      var state := NewThread;
      if start.threadId in threads {
        state := threads[start.threadId];
      }
      if state.metadata.None? {
        state := state.(metadata := Some(SubAgentMetadata(start)));
      }
      if state.connection.None? {
        state := state.(connection := parentConnection);
      }
      threads := threads[start.threadId := state];
      out := [ThreadInitialized(start.threadId, None, SubAgentMetadata(start), start.details)];
    }

    method IngestGuardianReview(threadId: ThreadId, details: string) returns (out: seq<Event>)
      ensures Effect(View(), out) == Reducer.IngestGuardianReview(View(), threadId, details)
    {
      var c := ThreadContextOrWarn(threadId);
      out := if c.None? then [] else [GuardianEvent(c.value.thread.sessionId, c.value.client, details)];
    }

    method IngestCompaction(threadId: ThreadId, details: string) returns (out: seq<Event>)
      ensures Effect(View(), out) == Reducer.IngestCompaction(View(), threadId, details)
    {
      var c := ThreadContextOrWarn(threadId);
      out := if c.None? then [] else [CompactionEvent(threadId, c.value.client, c.value.thread, details)];
    }

    // -------------------------------------------------------------- turns

    method TurnEntry(t: TurnId) returns (turn: TurnState)
      modifies this`turns
      ensures turn == TurnOf(old(View()), t) && turns == old(turns)[t := turn]
    {
      if t !in turns {
        turns := turns[t := NewTurn];
      }
      turn := turns[t];
      assert turns == old(turns)[t := turn];
    }

    method MaybeEmitTurnEvent(t: TurnId) returns (out: seq<Event>)
      modifies this`turns
      ensures Effect(View(), out) == MaybeEmitTurn(old(View()), t)
    {
      if t !in turns {
        return [];
      }
      var turn := turns[t];
      if turn.threadId.None? || turn.images.None? || turn.config.None? || turn.profile.None? || turn.completed.None? {
        return [];
      }
      if turn.connection.None? || turn.connection.value !in connections {
        return [];
      }
      if turn.threadId.value !in threads || threads[turn.threadId.value].metadata.None? {
        return [];
      }
      out := [TurnEvent(TurnParams(State(requests, turns, connections, threads, toolItemsStartedAtMs, pendingReviews,
                                         itemReviewSummaries), t, turn))];
      out := out + AcceptedLines(t, turn);
      turns := turns - {t};
    }

    method IngestTurnResolvedConfig(config: TurnConfig) returns (out: seq<Event>)
      modifies this`turns
      ensures Effect(View(), out) == IngestConfig(old(View()), config)
    {
      var turn := TurnEntry(config.turnId);
      turn := turn.(threadId := Some(config.threadId), images := Some(config.images), config := Some(config));
      turns := turns[config.turnId := turn];
      assert View() == PutTurn(old(View()), config.turnId, turn);
      out := MaybeEmitTurnEvent(config.turnId);
    }

    method IngestTurnTokenUsage(t: TurnId, threadId: ThreadId, usage: string) returns (out: seq<Event>)
      modifies this`turns
      ensures Effect(View(), out) == IngestTokenUsage(old(View()), t, threadId, usage)
    {
      var turn := TurnEntry(t);
      turn := turn.(threadId := Some(threadId), tokenUsage := Some(usage));
      turns := turns[t := turn];
      assert View() == PutTurn(old(View()), t, turn);
      out := MaybeEmitTurnEvent(t);
    }

    method IngestTurnProfile(t: TurnId, profile: string) returns (out: seq<Event>)
      modifies this`turns
      ensures Effect(View(), out) == IngestProfile(old(View()), t, profile)
    {
      var turn := TurnEntry(t);
      turn := turn.(profile := Some(profile));
      turns := turns[t := turn];
      assert View() == PutTurn(old(View()), t, turn);
      out := MaybeEmitTurnEvent(t);
    }

    method IngestTurnCodexError(t: TurnId, threadId: ThreadId, error: string)
      modifies this`turns
      ensures Effect(View(), []) == IngestCodexError(old(View()), t, threadId, error)
    {
      var turn := TurnEntry(t);
      if turn.threadId.None? {
        turn := turn.(threadId := Some(threadId));
      }
      turn := turn.(codexError := Some(error));
      turns := turns[t := turn];
    }

    method TurnStartedNotice(t: TurnId, startedAt: Option<int>)
      modifies this`turns
      ensures Effect(View(), []) == IngestTurnStarted(old(View()), t, startedAt)
    {
      var turn := TurnEntry(t);
      turns := turns[t := turn.(startedAt := OptionNonNegative(startedAt))];
    }

    method TurnDiffNotice(threadId: ThreadId, t: TurnId, diff: string)
      modifies this`turns
      ensures Effect(View(), []) == IngestDiff(old(View()), threadId, t, diff)
    {
      var turn := TurnEntry(t);
      turns := turns[t := turn.(threadId := Some(threadId), latestDiff := Some(diff))];
    }

    method TurnCompletedNotice(t: TurnId, end: TurnEnd) returns (out: seq<Event>)
      modifies this`turns
      ensures Effect(View(), out) == IngestTurnCompleted(old(View()), t, end)
    {
      var turn := TurnEntry(t);
      turn := turn.(completed := Some(CompletedOf(end)));
      turns := turns[t := turn];
      assert View() == PutTurn(old(View()), t, turn);
      out := MaybeEmitTurnEvent(t);
    }

    // -------------------------------------------------------------- client requests

    method IngestRequest(key: RequestKey, request: ClientRequestBody)
      modifies this`requests
      ensures Effect(View(), []) == Reducer.IngestRequest(old(View()), key, request)
    {
      match request
      case TurnStartRequest(threadId, images) =>
        requests := requests[key := PendingTurnStart(threadId, images)];
      case TurnSteerRequest(threadId, expected, images, createdAt) =>
        requests := requests[key := PendingTurnSteer(threadId, expected, images, createdAt)];
      case OtherClientRequest =>
    }

    method RemoveRequest(key: RequestKey) returns (request: Option<RequestState>)
      modifies this`requests
      ensures request == Lookup(old(requests), key) && View() == TakeRequest(old(View()), key)
    {
      request := if key in requests then Some(requests[key]) else None;
      requests := requests - {key};
    }

    method TurnStartAnswer(key: RequestKey, t: TurnId) returns (out: seq<Event>)
      modifies this`requests, this`turns
      ensures Effect(View(), out) == IngestTurnStart(old(View()), key, t)
    {
      var request := RemoveRequest(key);
      if request.None? || !request.value.PendingTurnStart? {
        return [];
      }
      ghost var taken := View();
      var turn := TurnEntry(t);
      turn := turn.(connection := Some(key.connection), threadId := Some(request.value.threadId),
                    images := Some(request.value.images));
      turns := turns[t := turn];
      assert View() == PutTurn(taken, t, turn);
      out := MaybeEmitTurnEvent(t);
    }

    method EmitTurnSteerEvent(connection: ConnectionId, request: RequestState, accepted: Option<TurnId>,
                              rejection: Option<SteerRejection>) returns (out: seq<Event>)
      requires request.PendingTurnSteer?
      ensures Effect(View(), out) == EmitSteer(View(), connection, request, accepted, rejection)
    {
      if connection !in connections {
        return [];
      }
      if request.threadId !in threads || threads[request.threadId].metadata.None? {
        return [];
      }
      out := [TurnSteerEvent(SteerParams(request, connections[connection], threads[request.threadId].metadata.value,
                                         accepted, rejection))];
    }

    method IngestTurnSteerResponse(key: RequestKey, t: TurnId) returns (out: seq<Event>)
      modifies this`requests, this`turns
      ensures Effect(View(), out) == IngestSteerResponse(old(View()), key, t)
    {
      var request := RemoveRequest(key);
      if request.None? || !request.value.PendingTurnSteer? {
        return [];
      }
      if t in turns {
        turns := turns[t := turns[t].(steerCount := turns[t].steerCount + 1)];
      }
      out := EmitTurnSteerEvent(key.connection, request.value, Some(t), None);
    }

    method IngestErrorResponse(key: RequestKey, rejection: Option<SteerRejection>) returns (out: seq<Event>)
      modifies this`requests
      ensures Effect(View(), out) == Reducer.IngestErrorResponse(old(View()), key, rejection)
    {
      var request := RemoveRequest(key);
      if request.None? || !request.value.PendingTurnSteer? {
        return [];
      }
      out := EmitTurnSteerEvent(key.connection, request.value, None, rejection);
    }

    method IngestResponse(key: RequestKey, response: ClientResponseBody) returns (out: seq<Event>)
      modifies this`requests, this`turns, this`threads
      ensures Effect(View(), out) == Reducer.IngestResponse(old(View()), key, response)
    {
      out := [];
      match response
      case ThreadOpened(mode, thread) => out := EmitThreadInitialized(key.connection, mode, thread);
      case TurnStartResponse(t) => out := TurnStartAnswer(key, t);
      case TurnSteerResponse(t) => out := IngestTurnSteerResponse(key, t);
      case OtherClientResponse =>
    }

    // -------------------------------------------------------------- reviews

    method IngestServerRequest(approval: Option<ApprovalRequest>)
      modifies this`pendingReviews
      ensures Effect(View(), []) == Reducer.IngestServerRequest(old(View()), approval)
    {
      if approval.Some? {
        var pending := PendingOf(approval.value);
        if pending.Some? {
          pendingReviews := pendingReviews[approval.value.id := pending.value];
        }
      }
    }

    method RecordItemReviewSummary(key: ToolItemKey, p: PendingReview, reviewer: Reviewer, v: Verdict)
      requires SummaryKey(p) == Some(key)
      modifies this`itemReviewSummaries
      ensures View() == RecordReview(old(View()), p, reviewer, v)
    {
      var summary := if key in itemReviewSummaries then itemReviewSummaries[key] else NoReviews;
      summary := summary.(reviews := summary.reviews + 1);
      match reviewer {
        case Guardian => summary := summary.(guardianReviews := summary.guardianReviews + 1);
        case User => summary := summary.(userReviews := summary.userReviews + 1);
      }
      summary := summary.(outcome := Some(FinalOutcomeOf(reviewer, v)));
      summary := summary.(additionalPermissions := summary.additionalPermissions || p.additionalPermissions);
      summary := summary.(networkAccess := summary.networkAccess || p.networkAccess);
      itemReviewSummaries := itemReviewSummaries[key := summary];
    }

    method EmitReviewEvent(p: PendingReview, reviewer: Reviewer, v: Verdict, completedAt: nat) returns (out: seq<Event>)
      modifies this`itemReviewSummaries
      ensures Effect(View(), out) == FinishReview(old(View()), p, reviewer, v, completedAt)
    {
      var key := SummaryKey(p);
      if key.Some? {
        RecordItemReviewSummary(key.value, p, reviewer, v);
      }
      var c := ThreadContextOrWarn(p.threadId);
      if c.None? {
        return [];
      }
      out := [ReviewEvent(ReviewParams(p, c.value.client, c.value.thread, reviewer, v.status, v.resolution, completedAt,
                                       Duration(p.startedAt, completedAt)))];
    }

    method AnswerPending(id: RequestId, v: Verdict, answeredAt: nat) returns (out: seq<Event>)
      modifies this`pendingReviews, this`itemReviewSummaries
      ensures Effect(View(), out) == AnswerReview(old(View()), id, v, answeredAt)
    {
      if id !in pendingReviews {
        return [];
      }
      var p := pendingReviews[id];
      pendingReviews := pendingReviews - {id};
      out := EmitReviewEvent(p, User, v, answeredAt);
    }

    method IngestServerResponse(id: RequestId, answer: ApprovalAnswer, answeredAt: nat) returns (out: seq<Event>)
      modifies this`pendingReviews, this`itemReviewSummaries
      ensures Effect(View(), out) == Reducer.IngestServerResponse(old(View()), id, answer, answeredAt)
    {
      out := [];
      match answer
      case CommandAnswer(d) => out := AnswerPending(id, CommandVerdict(d), answeredAt);
      case FileAnswer(d) => out := AnswerPending(id, FileVerdict(d), answeredAt);
      case OtherAnswer =>
    }

    method IngestGuardianReviewCompleted(n: GuardianNotice) returns (out: seq<Event>)
      modifies this`itemReviewSummaries
      ensures Effect(View(), out) == IngestGuardianCompleted(old(View()), n)
    {
      var v := GuardianVerdict(n.status);
      if v.None? || n.startedAt < 0 || n.completedAt < 0 {
        return [];
      }
      out := EmitReviewEvent(GuardianPending(n), Guardian, v.value, n.completedAt);
    }

    // -------------------------------------------------------------- tool items

    method ItemStartedNotice(threadId: ThreadId, t: TurnId, item: ThreadItem, startedAt: int)
      modifies this`toolItemsStartedAtMs
      ensures Effect(View(), []) == IngestItemStarted(old(View()), threadId, t, item, startedAt)
    {
      if IsTracked(item) && startedAt >= 0 {
        toolItemsStartedAtMs := toolItemsStartedAtMs[ToolItemKey(threadId, t, item.id) := startedAt];
      }
    }

    method FinishItemNotice(key: ToolItemKey, item: ThreadItem, completedAt: int) returns (out: seq<Event>)
      requires key in toolItemsStartedAtMs
      modifies this`toolItemsStartedAtMs, this`itemReviewSummaries
      ensures Effect(View(), out) == FinishItem(old(View()), key, item, completedAt)
    {
      var startedAt := toolItemsStartedAtMs[key];
      toolItemsStartedAtMs := toolItemsStartedAtMs - {key};
      if completedAt < 0 {
        return [];
      }
      var c := ThreadContextOrWarn(key.threadId);
      if c.None? {
        return [];
      }
      out := [];
      var outcome := OutcomeOf(item);
      if outcome.Some? {
        var r := if key in itemReviewSummaries then itemReviewSummaries[key] else NoReviews;
        out := [ToolItemEvent(ToolItemParams(key, c.value.client, c.value.thread, item, outcome.value, startedAt,
                                             completedAt, Duration(startedAt, completedAt), r.reviews,
                                             r.guardianReviews,
                                             r.userReviews, if r.outcome.None? then Unknown else r.outcome.value,
                                             r.additionalPermissions, r.networkAccess))];
      }
      itemReviewSummaries := itemReviewSummaries - {key};
    }

    method ItemCompletedNotice(threadId: ThreadId, t: TurnId, item: ThreadItem, completedAt: int)
      returns (out: seq<Event>)
      modifies this`turns, this`toolItemsStartedAtMs, this`itemReviewSummaries
      ensures Effect(View(), out) == IngestItemCompleted(old(View()), threadId, t, item, completedAt)
    {
      if !IsTracked(item) || t !in turns {
        return [];
      }
      turns := turns[t := turns[t].(toolCounts := Record(turns[t].toolCounts, item))];
      var key := ToolItemKey(threadId, t, item.id);
      if key !in toolItemsStartedAtMs {
        return [];
      }
      out := FinishItemNotice(key, item, completedAt);
    }

    // -------------------------------------------------------------- all facts

    /** The notifications about items. */
    method IngestItemNotification(f: Fact) returns (out: seq<Event>)
      requires f.ItemStarted? || f.ItemCompleted? || f.GuardianReviewCompleted?
      modifies this`turns, this`toolItemsStartedAtMs, this`itemReviewSummaries
      ensures Effect(View(), out) == Reducer.Ingest(old(View()), f)
    {
      out := [];
      match f
      case ItemStarted(threadId, t, item, startedAt) => ItemStartedNotice(threadId, t, item, startedAt);
      case ItemCompleted(threadId, t, item, completedAt) => out := ItemCompletedNotice(threadId, t, item, completedAt);
      case GuardianReviewCompleted(notice) => out := IngestGuardianReviewCompleted(notice);
    }

    /** The notifications about turns. */
    method IngestTurnNotification(f: Fact) returns (out: seq<Event>)
      requires f.TurnStarted? || f.TurnDiffUpdated? || f.TurnCompleted?
      modifies this`turns
      ensures Effect(View(), out) == Reducer.Ingest(old(View()), f)
    {
      out := [];
      match f
      case TurnStarted(t, startedAt) => TurnStartedNotice(t, startedAt);
      case TurnDiffUpdated(threadId, t, diff) => TurnDiffNotice(threadId, t, diff);
      case TurnCompleted(t, end) => out := TurnCompletedNotice(t, end);
    }

    method IngestNotification(f: Fact) returns (out: seq<Event>)
      requires IsNotification(f)
      modifies this`turns, this`toolItemsStartedAtMs, this`itemReviewSummaries
      ensures Effect(View(), out) == Reducer.Ingest(old(View()), f)
    {
      if f.ItemStarted? || f.ItemCompleted? || f.GuardianReviewCompleted? {
        out := IngestItemNotification(f);
      } else {
        out := IngestTurnNotification(f);
      }
    }

    method IngestCustom(f: Fact) returns (out: seq<Event>)
      requires IsCustom(f)
      modifies this`threads
      ensures Effect(View(), out) == Reducer.Ingest(old(View()), f)
    {
      out := [];
      match f
      case SubAgentThreadStarted(start) => out := IngestSubagentThreadStarted(start);
      case Compaction(threadId, details) => out := IngestCompaction(threadId, details);
      case GuardianReview(threadId, details) => out := IngestGuardianReview(threadId, details);
      case PassedThrough(events) => out := Named(events);
    }

    method IngestTurnFact(f: Fact) returns (out: seq<Event>)
      requires IsTurnFact(f)
      modifies this`turns
      ensures Effect(View(), out) == Reducer.Ingest(old(View()), f)
    {
      out := [];
      match f
      case TurnResolvedConfig(config) =>
        assert Reducer.Ingest(View(), f) == IngestConfig(View(), config);
        out := IngestTurnResolvedConfig(config);
      case TurnTokenUsage(t, threadId, usage) =>
        assert Reducer.Ingest(View(), f) == IngestTokenUsage(View(), t, threadId, usage);
        out := IngestTurnTokenUsage(t, threadId, usage);
      case TurnProfile(t, profile) =>
        assert Reducer.Ingest(View(), f) == IngestProfile(View(), t, profile);
        out := IngestTurnProfile(t, profile);
      case TurnCodexError(t, threadId, error) =>
        assert Reducer.Ingest(View(), f) == IngestCodexError(View(), t, threadId, error);
        IngestTurnCodexError(t, threadId, error);
    }

    method IngestMessage(f: Fact) returns (out: seq<Event>)
      requires !IsNotification(f) && !IsTurnFact(f) && !IsCustom(f)
      modifies this
      ensures Effect(View(), out) == Reducer.Ingest(old(View()), f)
    {
      out := [];
      match f
      case Initialize(connection, client) => IngestInitialize(connection, client);
      case ClientRequest(key, request) => IngestRequest(key, request);
      case ClientResponse(key, response) => out := IngestResponse(key, response);
      case ErrorResponse(key, rejection) => out := IngestErrorResponse(key, rejection);
      case ServerRequest(approval) => IngestServerRequest(approval);
      case ServerResponse(id, answer, answeredAt) => out := IngestServerResponse(id, answer, answeredAt);
      case EffectivePermissions(id, empty, session, answeredAt) =>
        out := AnswerPending(id, PermissionsVerdict(empty, session), answeredAt);
      case ServerRequestAborted(id, answeredAt) => out := AnswerPending(id, Verdict(Aborted, NoResolution), answeredAt);
    }

    method Ingest(f: Fact) returns (out: seq<Event>)
      modifies this
      ensures Effect(View(), out) == Reducer.Ingest(old(View()), f)
    {
      if IsNotification(f) {
        out := IngestNotification(f);
      } else if IsTurnFact(f) {
        out := IngestTurnFact(f);
      } else if IsCustom(f) {
        out := IngestCustom(f);
      } else {
        out := IngestMessage(f);
      }
    }

    /** The queue's worker: one fact after the other. */
    method IngestAll(facts: seq<Fact>) returns (out: seq<Event>)
      modifies this
      ensures Effect(View(), out) == Replay(old(View()), facts)
    {
      out := [];
      var i := 0;
      while i < |facts|
        invariant 0 <= i <= |facts|
        invariant Effect(View(), out) == Replay(old(View()), facts[..i])
      {
        var more := Ingest(facts[i]);
        ReplayStep(old(View()), facts[..i], facts[i]);
        assert facts[..i + 1] == facts[..i] + [facts[i]];
        out := out + more;
        i := i + 1;
      }
      assert facts[..i] == facts;
    }
  }
}
