/** Exactly which event a fact emits after a run, and what it carries, read off the history of the facts. */
module ReducerEvents {
  import opened Options
  import opened AnalyticsTypes
  import opened Reducer
  import opened ReducerContext
  import opened ReducerTurns
  import Requests = ReducerRequests
  import opened ReducerReviews

  function Elapsed(startedAt: nat, completedAt: nat): Option<nat> {
    if completedAt < startedAt then None else Some(completedAt - startedAt)
  }

  // ---------------------------------------------------------------- started items

  /** A completion that takes the item's start, whatever becomes of it. */
  predicate TakesStart(s: State, f: Fact, key: ToolItemKey) {
    && f.ItemCompleted? && IsTracked(f.item) && f.turnId in s.turns
    && key == ToolItemKey(f.threadId, f.turnId, f.item.id)
  }

  /** The time of the last start of the item that no completion has taken since. */
  function OpenStart(facts: seq<Fact>, key: ToolItemKey): Option<nat> {
    if facts == [] then None
    else
      var front, f := facts[..|facts| - 1], facts[|facts| - 1];
      if StartsItem(f, key) then Some(f.startedAtMs)
      else if TakesStart(After(front), f, key) then None
      else OpenStart(front, key)
  }

  function NextStart(s: State, f: Fact, key: ToolItemKey): Option<nat> {
    if StartsItem(f, key) then Some(f.startedAtMs)
    else if TakesStart(s, f, key) then None
    else Lookup(s.itemsStarted, key)
  }

  lemma CompletionTakes(s: State, f: Fact, key: ToolItemKey)
    requires f.ItemCompleted?
    ensures Lookup(Ingest(s, f).state.itemsStarted, key) == NextStart(s, f, key)
  {
  }

  lemma ItemStartOpens(s: State, f: Fact, key: ToolItemKey)
    requires f.ItemStarted?
    ensures Lookup(Ingest(s, f).state.itemsStarted, key) == NextStart(s, f, key)
  {
  }

  lemma StartStep(s: State, f: Fact, key: ToolItemKey)
    ensures Lookup(Ingest(s, f).state.itemsStarted, key) == NextStart(s, f, key)
  {
    if f.ItemCompleted? {
      CompletionTakes(s, f, key);
    } else if f.ItemStarted? {
      ItemStartOpens(s, f, key);
    } else {
      OtherFactsKeepStarts(s, f);
    }
  }

  /** The reducer keeps for each item exactly its last untaken start. */
  lemma {:induction false} StartsAreOpen(facts: seq<Fact>, key: ToolItemKey)
    ensures Lookup(After(facts).itemsStarted, key) == OpenStart(facts, key)
    decreases |facts|
  {
    if facts != [] {
      StartsAreOpen(facts[..|facts| - 1], key);
      StartStep(After(facts[..|facts| - 1]), facts[|facts| - 1], key);
    }
  }

  // ---------------------------------------------------------------- tool-item events

  predicate IsInProgress(item: ThreadItem) {
    match item
    case CommandExecution(_, status, _) => status == InProgress
    case FileChange(_, status, _) => status == InProgress
    case McpToolCall(_, status, _) => status == CallInProgress
    case DynamicToolCall(_, status, _) => status == CallInProgress
    case CollabAgentToolCall(_, status, _) => status == CallInProgress
    case _ => false
  }

  predicate IsDeclined(item: ThreadItem) {
    (item.CommandExecution? || item.FileChange?) && item.approvable == Declined
  }

  predicate IsBroken(item: ThreadItem) {
    || ((item.CommandExecution? || item.FileChange?) && item.approvable == Broke)
    || ((item.McpToolCall? || item.DynamicToolCall? || item.CollabAgentToolCall?) && item.call == CallFailed)
    || (item.ImageGeneration? && (item.status == "failed" || item.status == "error"))
  }

  /** The terminal status of a tracked item that is no longer in progress. */
  function TerminalOutcome(item: ThreadItem): ItemOutcome {
    if IsDeclined(item) then ItemOutcome(ItemRejected, Some(ApprovalDenied))
    else if IsBroken(item) then ItemOutcome(ItemFailed, Some(ToolError))
    else ItemOutcome(ItemCompletedOk, None)
  }

  lemma OutcomesAreTerminal(item: ThreadItem)
    requires IsTracked(item)
    ensures OutcomeOf(item) == if IsInProgress(item) then None else Some(TerminalOutcome(item))
  {
  }

  /** A completion that is reported: of a tracked item of a live turn, at a valid time, with an untaken start, in an
      attached thread, and not still in progress. */
  predicate Reports(facts: seq<Fact>, f: Fact) {
    && f.ItemCompleted? && IsTracked(f.item) && f.turnId in After(facts).turns && f.completedAtMs >= 0
    && OpenStart(facts, ToolItemKey(f.threadId, f.turnId, f.item.id)).Some?
    && AttachmentOf(facts, f.threadId).Some? && !IsInProgress(f.item)
  }

  /** What the report carries: the thread's context, the item and its outcome, the times, and the reviews finished for
      the item since its last clearing completion. */
  function ReportOf(facts: seq<Fact>, f: Fact): ToolItemParams
    requires Reports(facts, f) && ContextOf(facts, f.threadId).Some?
  {
    var key := ToolItemKey(f.threadId, f.turnId, f.item.id);
    var context, start := ContextOf(facts, f.threadId).value, OpenStart(facts, key).value;
    var reviews := ReviewsFor(facts, key);
    ToolItemParams(key, context.client, context.thread, f.item, TerminalOutcome(f.item), start, f.completedAtMs,
                   Elapsed(start, f.completedAtMs), |reviews|, CountBy(reviews, Guardian), CountBy(reviews, User),
                   if reviews == [] then Unknown else LastOutcome(reviews).value,
                   exists r <- reviews :: r.review.additionalPermissions, exists r <- reviews :: r.review.networkAccess)
  }

  lemma ItemOut(s: State, f: Fact, key: ToolItemKey)
    requires f.ItemCompleted? && IsTracked(f.item) && key == ToolItemKey(f.threadId, f.turnId, f.item.id)
    ensures var c := ThreadContext(s, f.threadId);
            IngestItemCompleted(s, f.threadId, f.turnId, f.item, f.completedAtMs).out
            == if f.turnId in s.turns && key in s.itemsStarted && f.completedAtMs >= 0 && c.Some?
                  && OutcomeOf(f.item).Some?
               then [ToolItemEvent(ToolItem(s, key, c.value, f.item, OutcomeOf(f.item).value, s.itemsStarted[key],
                                            f.completedAtMs))]
               else []
  {
    if f.turnId in s.turns {
      var s1 := PutTurn(s, f.turnId, s.turns[f.turnId].(toolCounts := Record(s.turns[f.turnId].toolCounts, f.item)));
      assert ThreadContext(s1, f.threadId) == ThreadContext(s, f.threadId) && SummaryOf(s1, key) == SummaryOf(s, key);
    }
  }

  /** After every run, a completed item is reported exactly under the conditions of `Reports`, by one event with
      exactly the contents of `ReportOf`. */
  lemma ToolItemReportedIff(facts: seq<Fact>, f: Fact)
    requires f.ItemCompleted?
    ensures ContextOf(facts, f.threadId).Some? <==> AttachmentOf(facts, f.threadId).Some?
    ensures Ingest(After(facts), f).out == if Reports(facts, f) then [ToolItemEvent(ReportOf(facts, f))] else []
  {
    ContextIsHistory(facts, f.threadId);
    if IsTracked(f.item) {
      var key := ToolItemKey(f.threadId, f.turnId, f.item.id);
      StartsAreOpen(facts, key);
      SummaryIsHistory(facts, key);
      OutcomesAreTerminal(f.item);
      ItemOut(After(facts), f, key);
    }
  }

  // ---------------------------------------------------------------- review events

  /** When the review a fact finishes was completed. */
  function FinishedAt(f: Fact): int
    requires UserVerdict(f).Some? || f.GuardianReviewCompleted?
  {
    if UserVerdict(f).Some? then f.answeredAt else f.notice.completedAt
  }

  function ReviewReport(facts: seq<Fact>, f: Fact): Option<ReviewParams>
    requires UserVerdict(f).Some? || f.GuardianReviewCompleted?
  {
    var done := FinishedBy(facts, f);
    if done.None? || FinishedAt(f) < 0 || ContextOf(facts, done.value.review.threadId).None? then None
    else
      var context := ContextOf(facts, done.value.review.threadId).value;
      Some(ReviewParams(done.value.review, context.client, context.thread, done.value.reviewer,
                        done.value.verdict.status, done.value.verdict.resolution, FinishedAt(f),
                        Elapsed(done.value.review.startedAt, FinishedAt(f))))
  }

  lemma FinishOut(s: State, p: PendingReview, reviewer: Reviewer, v: Verdict, at: nat)
    ensures var c := ThreadContext(s, p.threadId);
            FinishReview(s, p, reviewer, v, at).out
            == if c.None? then []
               else [ReviewEvent(ReviewParams(p, c.value.client, c.value.thread, reviewer, v.status, v.resolution, at,
                                              Elapsed(p.startedAt, at)))]
  {
    assert ThreadContext(RecordReview(s, p, reviewer, v), p.threadId) == ThreadContext(s, p.threadId);
  }

  lemma AnswerOut(s: State, id: RequestId, v: Verdict, at: nat)
    ensures AnswerReview(s, id, v, at).out
         == if id !in s.pendingReviews || ThreadContext(s, s.pendingReviews[id].threadId).None? then []
            else
              var p := s.pendingReviews[id];
              var c := ThreadContext(s, p.threadId).value;
              [ReviewEvent(ReviewParams(p, c.client, c.thread, User, v.status, v.resolution, at,
                                        Elapsed(p.startedAt, at)))]
  {
    if id in s.pendingReviews {
      var p, s1 := s.pendingReviews[id], s.(pendingReviews := s.pendingReviews - {id});
      assert ThreadContext(s1, p.threadId) == ThreadContext(s, p.threadId);
      FinishOut(s1, p, User, v, at);
    }
  }

  /** After every run, a fact that finishes a review in an attached thread emits exactly one review event, which
      carries the open approval or the guardian's own review, its reviewer, verdict and times; any other answer emits
      none. */
  lemma ReviewReportedIff(facts: seq<Fact>, f: Fact)
    requires UserVerdict(f).Some? || f.GuardianReviewCompleted?
    ensures Ingest(After(facts), f).out
         == if ReviewReport(facts, f).None? then [] else [ReviewEvent(ReviewReport(facts, f).value)]
  {
    var s, done := After(facts), FinishedBy(facts, f);
    if done.Some? {
      ContextIsHistory(facts, done.value.review.threadId);
    }
    if UserVerdict(f).Some? {
      ApprovalsAreOpen(facts, f.id);
      AnswerOut(s, f.id, UserVerdict(f).value, f.answeredAt);
    } else if done.Some? {
      FinishOut(s, done.value.review, Guardian, done.value.verdict, f.notice.completedAt);
    }
  }

  // ---------------------------------------------------------------- steer events

  /** The steer event of an answer: of the open steer request under its key, with the turn that accepted it or the
      reason it was rejected. */
  function SteerReport(facts: seq<Fact>, f: Fact): Option<SteerParams>
    requires Requests.MaySteer(f)
  {
    var request, client := Requests.OpenRequest(facts, f.key), ClientOf(facts, f.key.connection);
    if !Requests.IsSteer(request) || client.None? || DescriptionOf(facts, request.value.threadId).None? then None
    else Some(SteerParams(request.value, client.value, DescriptionOf(facts, request.value.threadId).value,
                          if f.ClientResponse? then Some(f.response.turnId) else None,
                          if f.ErrorResponse? then f.rejection else None))
  }

  lemma SteerOut(s: State, f: Fact)
    requires Requests.MaySteer(f)
    ensures var request := Lookup(s.requests, f.key);
            Ingest(s, f).out
            == if !Requests.IsSteer(request) || f.key.connection !in s.connections
                  || MetadataOf(s, request.value.threadId).None? then []
               else [TurnSteerEvent(SteerParams(request.value, s.connections[f.key.connection],
                                                MetadataOf(s, request.value.threadId).value,
                                                if f.ClientResponse? then Some(f.response.turnId) else None,
                                                if f.ErrorResponse? then f.rejection else None))]
  {
  }

  /** After every run, the answer to an open steer request on an initialised connection about a known thread emits
      exactly one steer event with those contents; any other answer emits none. */
  lemma SteerReportedIff(facts: seq<Fact>, f: Fact)
    requires Requests.MaySteer(f)
    ensures Ingest(After(facts), f).out
         == if SteerReport(facts, f).None? then [] else [TurnSteerEvent(SteerReport(facts, f).value)]
  {
    SteerOut(After(facts), f);
    Requests.RequestsAreOpen(facts, f.key);
    ConnectionsAreHistory(facts, f.key.connection);
    if Requests.IsSteer(Requests.OpenRequest(facts, f.key)) {
      ThreadsAreHistory(facts, Requests.OpenRequest(facts, f.key).value.threadId);
    }
  }

  // ---------------------------------------------------------------- thread events

  /** The events of facts about threads: one for every opening on an initialised connection and for every spawn, and
      one for a compaction or a guardian's review in an attached thread. */
  function ThreadReport(facts: seq<Fact>, f: Fact): seq<Event>
    requires OpensThread(f) || f.SubAgentThreadStarted? || f.Compaction? || f.GuardianReview?
  {
    if OpensThread(f) then
      var thread, client := f.response.thread, ClientOf(facts, f.key.connection);
      if client.None? then []
      else [ThreadInitialized(thread.id, client,
                              ThreadMetadata(thread.sessionId, thread.threadSource, f.response.mode,
                                             thread.subagentSource, thread.parent), thread.details)]
    else if f.SubAgentThreadStarted? then
      [ThreadInitialized(f.start.threadId, None,
                         ThreadMetadata(f.start.sessionId, Some("subagent"), New, Some(f.start.subagentSource),
                                        f.start.parent), f.start.details)]
    else
      var context := ContextOf(facts, f.threadId);
      if context.None? then []
      else if f.Compaction? then [CompactionEvent(f.threadId, context.value.client, context.value.thread, f.details)]
      else [GuardianEvent(context.value.thread.sessionId, context.value.client, f.details)]
  }

  lemma ThreadReported(facts: seq<Fact>, f: Fact)
    requires OpensThread(f) || f.SubAgentThreadStarted? || f.Compaction? || f.GuardianReview?
    ensures Ingest(After(facts), f).out == ThreadReport(facts, f)
  {
    if OpensThread(f) {
      ConnectionsAreHistory(facts, f.key.connection);
    } else if !f.SubAgentThreadStarted? {
      ContextIsHistory(facts, f.threadId);
    }
  }
}
