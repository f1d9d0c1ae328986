/** What the analytics reducer does with each fact: the state it leaves and the events it emits. Seven maps
    join facts that arrive in any order. */
module Reducer {
  import opened Options
  import opened AnalyticsTypes
  import DiffSummary

  datatype State = State(
    requests: map<RequestKey, RequestState>,
    turns: map<TurnId, TurnState>,
    connections: map<ConnectionId, ClientMetadata>,
    threads: map<ThreadId, ThreadState>,
    itemsStarted: map<ToolItemKey, nat>,
    pendingReviews: map<RequestId, PendingReview>,
    reviewSummaries: map<ToolItemKey, ReviewSummary>)

  const Empty := State(map[], map[], map[], map[], map[], map[], map[])

  datatype Effect = Effect(state: State, out: seq<Event>)

  function Quiet(s: State): Effect {
    Effect(s, [])
  }

  function Lookup<K, V>(m: map<K, V>, k: K): Option<V> {
    if k in m then Some(m[k]) else None
  }

  function NonNegative(n: int): Option<nat> {
    if n < 0 then None else Some(n)
  }

  function OptionNonNegative(n: Option<int>): Option<nat> {
    if n.None? then None else NonNegative(n.value)
  }

  // ---------------------------------------------------------------- contexts

  datatype Context = Context(client: ClientMetadata, thread: ThreadMetadata)

  /** The connection a thread is attached to, when it is known and initialised. */
  function ThreadConnection(s: State, threadId: ThreadId): Option<ClientMetadata> {
    if threadId !in s.threads then None
    else if s.threads[threadId].connection.None? then None
    else Lookup(s.connections, s.threads[threadId].connection.value)
  }

  function MetadataOf(s: State, threadId: ThreadId): Option<ThreadMetadata> {
    if threadId in s.threads then s.threads[threadId].metadata else None
  }

  function ThreadContext(s: State, threadId: ThreadId): Option<Context> {
    var client := ThreadConnection(s, threadId);
    var metadata := MetadataOf(s, threadId);
    if client.None? || metadata.None? then None else Some(Context(client.value, metadata.value))
  }

  // ---------------------------------------------------------------- connections and threads

  function IngestInitialize(s: State, connection: ConnectionId, client: ClientMetadata): Effect {
    Quiet(s.(connections := s.connections[connection := client]))
  }

  function OpenThread(s: State, connection: ConnectionId, mode: InitializationMode, thread: ThreadInfo): (r: Effect)
    ensures r.state == s.(threads := r.state.threads)
    ensures forall e <- r.out :: e.ThreadInitialized?
  {
    if connection !in s.connections then Quiet(s)
    else
      var metadata := ThreadMetadata(thread.sessionId, thread.threadSource, mode, thread.subagentSource, thread.parent);
      Effect(s.(threads := s.threads[thread.id := ThreadState(Some(connection), Some(metadata))]),
             [ThreadInitialized(thread.id, Some(s.connections[connection]), metadata, thread.details)])
  }

  function SubAgentMetadata(start: SubAgentStart): ThreadMetadata {
    ThreadMetadata(start.sessionId, Some("subagent"), New, Some(start.subagentSource), start.parent)
  }

  /** A spawned subagent keeps what is known about it and inherits its parent's connection when it has
      none of its own. */
  function IngestSubAgent(s: State, start: SubAgentStart): (r: Effect)
    ensures r.state == s.(threads := r.state.threads)
    ensures forall e <- r.out :: e.ThreadInitialized?
  {
    var parentConnection :=
      if start.parent.Some? && start.parent.value in s.threads then s.threads[start.parent.value].connection else None;
    var before := if start.threadId in s.threads then s.threads[start.threadId] else NewThread;
    var after := ThreadState(if before.connection.None? then parentConnection else before.connection,
                             if before.metadata.None? then Some(SubAgentMetadata(start)) else before.metadata);
    Effect(s.(threads := s.threads[start.threadId := after]),
           [ThreadInitialized(start.threadId, None, SubAgentMetadata(start), start.details)])
  }

  function IngestGuardianReview(s: State, threadId: ThreadId, details: string): (r: Effect)
    ensures r.state == s
    ensures forall e <- r.out :: e.GuardianEvent?
  {
    var c := ThreadContext(s, threadId);
    if c.None? then Quiet(s) else Effect(s, [GuardianEvent(c.value.thread.sessionId, c.value.client, details)])
  }

  function IngestCompaction(s: State, threadId: ThreadId, details: string): (r: Effect)
    ensures r.state == s
    ensures forall e <- r.out :: e.CompactionEvent?
  {
    var c := ThreadContext(s, threadId);
    if c.None? then Quiet(s) else Effect(s, [CompactionEvent(threadId, c.value.client, c.value.thread, details)])
  }

  // ---------------------------------------------------------------- turns

  function TurnOf(s: State, t: TurnId): TurnState {
    if t in s.turns then s.turns[t] else NewTurn
  }

  function PutTurn(s: State, t: TurnId, turn: TurnState): State {
    s.(turns := s.turns[t := turn])
  }

  predicate HasAllParts(turn: TurnState) {
    turn.threadId.Some? && turn.images.Some? && turn.config.Some? && turn.profile.Some? && turn.completed.Some?
  }

  /** Whether the turn's event can be emitted now. */
  predicate CanEmit(s: State, turn: TurnState) {
    && HasAllParts(turn)
    && turn.connection.Some? && turn.connection.value in s.connections
    && MetadataOf(s, turn.threadId.value).Some?
  }

  function TurnParams(s: State, t: TurnId, turn: TurnState): TurnEventParams
    requires CanEmit(s, turn)
  {
    TurnEventParams(t, turn.threadId.value, s.connections[turn.connection.value],
                    MetadataOf(s, turn.threadId.value).value, turn.images.value, turn.config.value.details,
                    turn.profile.value, turn.completed.value, turn.startedAt, turn.tokenUsage, turn.codexError,
                    turn.steerCount, turn.toolCounts)
  }

  /** The accepted-line event of a turn whose last diff adds or deletes lines. */
  function AcceptedLines(t: TurnId, turn: TurnState): seq<Event>
    requires turn.threadId.Some? && turn.config.Some?
  {
    if turn.latestDiff.None? then []
    else
      var scan := DiffSummary.ScanDiff(turn.latestDiff.value);
      if |scan.added| == 0 && scan.deleted == 0 then []
      else [AcceptedLinesEvent(t, turn.threadId.value, turn.config.value.details.model, |scan.added|, scan.deleted)]
  }

  /** Emits and forgets the turn once every part and its context are there. */
  function MaybeEmitTurn(s: State, t: TurnId): (r: Effect)
    ensures r.state == s.(turns := r.state.turns)
    ensures forall e <- r.out :: e.TurnEvent? || e.AcceptedLinesEvent?
  {
    if t in s.turns && CanEmit(s, s.turns[t])
    then Effect(s.(turns := s.turns - {t}), [TurnEvent(TurnParams(s, t, s.turns[t]))] + AcceptedLines(t, s.turns[t]))
    else Quiet(s)
  }

  function IngestConfig(s: State, config: TurnConfig): (r: Effect)
    ensures r.state == s.(turns := r.state.turns)
    ensures forall e <- r.out :: e.TurnEvent? || e.AcceptedLinesEvent?
  {
    var turn := TurnOf(s, config.turnId).(threadId := Some(config.threadId), images := Some(config.images),
                                          config := Some(config));
    MaybeEmitTurn(PutTurn(s, config.turnId, turn), config.turnId)
  }

  function IngestTokenUsage(s: State, t: TurnId, threadId: ThreadId, usage: string): (r: Effect)
    ensures r.state == s.(turns := r.state.turns)
    ensures forall e <- r.out :: e.TurnEvent? || e.AcceptedLinesEvent?
  {
    MaybeEmitTurn(PutTurn(s, t, TurnOf(s, t).(threadId := Some(threadId), tokenUsage := Some(usage))), t)
  }

  function IngestProfile(s: State, t: TurnId, profile: string): (r: Effect)
    ensures r.state == s.(turns := r.state.turns)
    ensures forall e <- r.out :: e.TurnEvent? || e.AcceptedLinesEvent?
  {
    MaybeEmitTurn(PutTurn(s, t, TurnOf(s, t).(profile := Some(profile))), t)
  }

  function IngestCodexError(s: State, t: TurnId, threadId: ThreadId, error: string): (r: Effect)
    ensures r.state == s.(turns := r.state.turns)
    ensures r.out == []
  {
    var turn := TurnOf(s, t);
    Quiet(PutTurn(s, t, turn.(threadId := if turn.threadId.None? then Some(threadId) else turn.threadId,
                              codexError := Some(error))))
  }

  function IngestTurnStarted(s: State, t: TurnId, startedAt: Option<int>): (r: Effect)
    ensures r.state == s.(turns := r.state.turns)
    ensures r.out == []
  {
    Quiet(PutTurn(s, t, TurnOf(s, t).(startedAt := OptionNonNegative(startedAt))))
  }

  function IngestDiff(s: State, threadId: ThreadId, t: TurnId, diff: string): (r: Effect)
    ensures r.state == s.(turns := r.state.turns)
    ensures r.out == []
  {
    Quiet(PutTurn(s, t, TurnOf(s, t).(threadId := Some(threadId), latestDiff := Some(diff))))
  }

  function AnalyticsStatus(status: ProtocolTurnStatus): Option<TurnStatus> {
    match status
    case TurnDone => Some(Completed)
    case TurnFailed => Some(FailedTurn)
    case TurnInterrupted => Some(Interrupted)
    case TurnInProgress => None
  }

  function CompletedOf(end: TurnEnd): (c: CompletedTurn)
    ensures c.status.None? <==> end.status == TurnInProgress
    ensures c.status == Some(FailedTurn) <==> end.status == TurnFailed
    ensures c.status == Some(Interrupted) <==> end.status == TurnInterrupted
    ensures c.error == end.error
    ensures c.completedAt > 0 ==> end.completedAt == Some(c.completedAt)
    ensures end.completedAt.Some? && end.completedAt.value >= 0 ==> c.completedAt == end.completedAt.value
    ensures c.durationMs.Some? <==> end.durationMs.Some? && end.durationMs.value >= 0
    ensures c.durationMs.Some? ==> c.durationMs.value == end.durationMs.value
  {
    var at := OptionNonNegative(end.completedAt);
    CompletedTurn(AnalyticsStatus(end.status), end.error, if at.None? then 0 else at.value,
                  OptionNonNegative(end.durationMs))
  }

  function IngestTurnCompleted(s: State, t: TurnId, end: TurnEnd): (r: Effect)
    ensures r.state == s.(turns := r.state.turns)
    ensures forall e <- r.out :: e.TurnEvent? || e.AcceptedLinesEvent?
  {
    MaybeEmitTurn(PutTurn(s, t, TurnOf(s, t).(completed := Some(CompletedOf(end)))), t)
  }

  // ---------------------------------------------------------------- client requests

  function IngestRequest(s: State, key: RequestKey, request: ClientRequestBody): (r: Effect)
    ensures r.state == s.(requests := r.state.requests)
    ensures r.out == []
  {
    match request
    case TurnStartRequest(threadId, images) =>
      Quiet(s.(requests := s.requests[key := PendingTurnStart(threadId, images)]))
    case TurnSteerRequest(threadId, expected, images, createdAt) =>
      Quiet(s.(requests := s.requests[key := PendingTurnSteer(threadId, expected, images, createdAt)]))
    case OtherClientRequest => Quiet(s)
  }

  function TakeRequest(s: State, key: RequestKey): State {
    s.(requests := s.requests - {key})
  }

  /** A start response is joined with its request; whatever request was stored is consumed. */
  function IngestTurnStart(s: State, key: RequestKey, t: TurnId): (r: Effect)
    ensures r.state == s.(requests := r.state.requests, turns := r.state.turns)
    ensures forall e <- r.out :: e.TurnEvent? || e.AcceptedLinesEvent?
  {
    var request := Lookup(s.requests, key);
    var s1 := TakeRequest(s, key);
    if request.None? || !request.value.PendingTurnStart? then Quiet(s1)
    else
      var turn := TurnOf(s1, t).(connection := Some(key.connection), threadId := Some(request.value.threadId),
                                 images := Some(request.value.images));
      MaybeEmitTurn(PutTurn(s1, t, turn), t)
  }

  function EmitSteer(s: State, connection: ConnectionId, request: RequestState, accepted: Option<TurnId>,
                     rejection: Option<SteerRejection>): (r: Effect)
    requires request.PendingTurnSteer?
    ensures r.state == s
    ensures forall e <- r.out :: e.TurnSteerEvent?
  {
    var metadata := MetadataOf(s, request.threadId);
    if connection !in s.connections || metadata.None? then Quiet(s)
    else Effect(s, [TurnSteerEvent(SteerParams(request, s.connections[connection], metadata.value, accepted,
                                               rejection))])
  }

  function IngestSteerResponse(s: State, key: RequestKey, t: TurnId): (r: Effect)
    ensures r.state == s.(requests := r.state.requests, turns := r.state.turns)
    ensures forall e <- r.out :: e.TurnSteerEvent?
  {
    var request := Lookup(s.requests, key);
    var s1 := TakeRequest(s, key);
    if request.None? || !request.value.PendingTurnSteer? then Quiet(s1)
    else
      var s2 := if t in s1.turns then PutTurn(s1, t, s1.turns[t].(steerCount := s1.turns[t].steerCount + 1)) else s1;
      EmitSteer(s2, key.connection, request.value, Some(t), None)
  }

  function IngestErrorResponse(s: State, key: RequestKey, rejection: Option<SteerRejection>): (r: Effect)
    ensures r.state == s.(requests := r.state.requests)
    ensures forall e <- r.out :: e.TurnSteerEvent?
  {
    var request := Lookup(s.requests, key);
    var s1 := TakeRequest(s, key);
    if request.None? || !request.value.PendingTurnSteer? then Quiet(s1)
    else EmitSteer(s1, key.connection, request.value, None, rejection)
  }

  function IngestResponse(s: State, key: RequestKey, response: ClientResponseBody): (r: Effect)
    ensures r.state == s.(requests := r.state.requests, turns := r.state.turns, threads := r.state.threads)
  {
    match response
    case ThreadOpened(mode, thread) => OpenThread(s, key.connection, mode, thread)
    case TurnStartResponse(t) => IngestTurnStart(s, key, t)
    case TurnSteerResponse(t) => IngestSteerResponse(s, key, t)
    case OtherClientResponse => Quiet(s)
  }

  // ---------------------------------------------------------------- reviews

  function PendingOf(a: ApprovalRequest): Option<PendingReview> {
    if a.startedAt < 0 then None
    else match a.ask
      case AskCommand(networkContext, networkAmendments, permissions, approvalId) =>
        var network := networkContext || networkAmendments || (permissions.Some? && permissions.value);
        var trigger := if approvalId then ExecveIntercept else if network then NetworkPolicyDenial
                       else if permissions.Some? then SandboxDenial else Initial;
        Some(PendingReview(a.threadId, a.turnId, Some(a.itemId), UserReview(a.id),
                           if networkContext then NetworkSubject else CommandSubject,
                           if networkContext then "network_access" else "command_execution",
                           trigger, a.startedAt, permissions.Some?, network))
      case AskFileChange(grantRoot) =>
        Some(PendingReview(a.threadId, a.turnId, Some(a.itemId), UserReview(a.id), FileSubject, "apply_patch",
                           if grantRoot then SandboxDenial else Initial, a.startedAt, grantRoot, false))
      case AskPermissions(network, fileSystem) =>
        Some(PendingReview(a.threadId, a.turnId, Some(a.itemId), UserReview(a.id), PermissionsSubject, "permissions",
                           if network then NetworkPolicyDenial else if fileSystem then SandboxDenial else Initial,
                           a.startedAt, network || fileSystem, network))
  }

  function IngestServerRequest(s: State, approval: Option<ApprovalRequest>): (r: Effect)
    ensures r.state == s.(pendingReviews := r.state.pendingReviews)
    ensures r.out == []
  {
    if approval.None? || PendingOf(approval.value).None? then Quiet(s)
    else Quiet(s.(pendingReviews := s.pendingReviews[approval.value.id := PendingOf(approval.value).value]))
  }

  datatype Verdict = Verdict(status: ReviewStatus, resolution: ReviewResolution)

  function CommandVerdict(d: CommandDecision): Verdict {
    match d
    case Accept => Verdict(Approved, NoResolution)
    case AcceptForSession => Verdict(Approved, SessionApproval)
    case AcceptWithExecPolicyAmendment => Verdict(Approved, ExecPolicyAmendment)
    case ApplyNetworkPolicyAmendment(allow) => Verdict(if allow then Approved else Denied, NetworkPolicyAmendment)
    case Decline => Verdict(Denied, NoResolution)
    case Cancel => Verdict(Aborted, NoResolution)
  }

  function FileVerdict(d: FileDecision): Verdict {
    match d
    case FileAccept => Verdict(Approved, NoResolution)
    case FileAcceptForSession => Verdict(Approved, SessionApproval)
    case FileDecline => Verdict(Denied, NoResolution)
    case FileCancel => Verdict(Aborted, NoResolution)
  }

  function PermissionsVerdict(empty: bool, session: bool): Verdict {
    if empty then Verdict(Denied, NoResolution)
    else Verdict(Approved, if session then SessionApproval else NoResolution)
  }

  function GuardianVerdict(status: GuardianStatus): Option<Verdict> {
    match status
    case GuardianInProgress => None
    case GuardianApproves => Some(Verdict(Approved, NoResolution))
    case GuardianDenies => Some(Verdict(Denied, NoResolution))
    case GuardianTimedOut => Some(Verdict(TimedOut, NoResolution))
    case GuardianAborts => Some(Verdict(Aborted, NoResolution))
  }

  function GuardianPending(n: GuardianNotice): PendingReview
    requires n.startedAt >= 0
  {
    var (subject, name, trigger) :=
      match n.action
      case GuardCommand => (CommandSubject, "command_execution", Initial)
      case GuardExecve => (CommandSubject, "command_execution", ExecveIntercept)
      case GuardApplyPatch => (FileSubject, "apply_patch", SandboxDenial)
      case GuardNetworkAccess => (NetworkSubject, "network_access", NetworkPolicyDenial)
      case GuardRequestPermissions(network, fileSystem) =>
        (PermissionsSubject, "permissions",
         if network then NetworkPolicyDenial else if fileSystem then SandboxDenial else Initial)
      case GuardMcpToolCall(tool) => (McpSubject, tool, Initial);
    var permissions :=
      match n.action
      case GuardApplyPatch => true
      case GuardNetworkAccess => true
      case GuardRequestPermissions(network, fileSystem) => network || fileSystem
      case _ => false;
    var networkAccess :=
      n.action.GuardNetworkAccess? || (n.action.GuardRequestPermissions? && n.action.network);
    PendingReview(n.threadId, n.turnId, n.targetItem, GuardianReviewId(n.reviewId), subject, name, trigger,
                  n.startedAt, permissions, networkAccess)
  }

  function FinalOutcomeOf(reviewer: Reviewer, v: Verdict): FinalOutcome {
    match reviewer
    case Guardian =>
      if v.status == Approved then GuardianApproved else if v.status == Denied then GuardianDenied else GuardianAborted
    case User =>
      if v.status == Approved then (if v.resolution == SessionApproval then UserApprovedForSession else UserApproved)
      else if v.status == Denied then UserDenied
      else UserAborted
  }

  /** The item a review counts for; permission and network reviews count for none. */
  function SummaryKey(p: PendingReview): Option<ToolItemKey> {
    if p.subject == PermissionsSubject || p.subject == NetworkSubject || p.itemId.None? then None
    else Some(ToolItemKey(p.threadId, p.turnId, p.itemId.value))
  }

  function SummaryOf(s: State, key: ToolItemKey): ReviewSummary {
    if key in s.reviewSummaries then s.reviewSummaries[key] else NoReviews
  }

  function AddReview(r: ReviewSummary, p: PendingReview, reviewer: Reviewer, v: Verdict): ReviewSummary {
    ReviewSummary(r.reviews + 1,
                  if reviewer == Guardian then r.guardianReviews + 1 else r.guardianReviews,
                  if reviewer == User then r.userReviews + 1 else r.userReviews,
                  Some(FinalOutcomeOf(reviewer, v)),
                  r.additionalPermissions || p.additionalPermissions,
                  r.networkAccess || p.networkAccess)
  }

  function RecordReview(s: State, p: PendingReview, reviewer: Reviewer, v: Verdict): (r: State)
    ensures r == s.(reviewSummaries := r.reviewSummaries)
  {
    var key := SummaryKey(p);
    if key.None? then s
    else s.(reviewSummaries := s.reviewSummaries[key.value := AddReview(SummaryOf(s, key.value), p, reviewer, v)])
  }

  function Duration(startedAt: nat, completedAt: nat): Option<nat> {
    if startedAt <= completedAt then Some(completedAt - startedAt) else None
  }

  /** A finished review is counted for its item whether or not its own event has a context. */
  function FinishReview(s: State, p: PendingReview, reviewer: Reviewer, v: Verdict, completedAt: nat): (r: Effect)
    ensures r.state == s.(reviewSummaries := r.state.reviewSummaries)
    ensures forall e <- r.out :: e.ReviewEvent?
  {
    var s1 := RecordReview(s, p, reviewer, v);
    var c := ThreadContext(s1, p.threadId);
    if c.None? then Quiet(s1)
    else Effect(s1, [ReviewEvent(ReviewParams(p, c.value.client, c.value.thread, reviewer, v.status, v.resolution,
                                              completedAt, Duration(p.startedAt, completedAt)))])
  }

  function AnswerReview(s: State, id: RequestId, v: Verdict, answeredAt: nat): (r: Effect)
    ensures r.state == s.(pendingReviews := r.state.pendingReviews, reviewSummaries := r.state.reviewSummaries)
    ensures forall e <- r.out :: e.ReviewEvent?
  {
    if id !in s.pendingReviews then Quiet(s)
    else FinishReview(s.(pendingReviews := s.pendingReviews - {id}), s.pendingReviews[id], User, v, answeredAt)
  }

  function IngestServerResponse(s: State, id: RequestId, answer: ApprovalAnswer, answeredAt: nat): (r: Effect)
    ensures r.state == s.(pendingReviews := r.state.pendingReviews, reviewSummaries := r.state.reviewSummaries)
    ensures forall e <- r.out :: e.ReviewEvent?
  {
    match answer
    case CommandAnswer(d) => AnswerReview(s, id, CommandVerdict(d), answeredAt)
    case FileAnswer(d) => AnswerReview(s, id, FileVerdict(d), answeredAt)
    case OtherAnswer => Quiet(s)
  }

  function IngestGuardianCompleted(s: State, n: GuardianNotice): (r: Effect)
    ensures r.state == s.(reviewSummaries := r.state.reviewSummaries)
    ensures forall e <- r.out :: e.ReviewEvent?
  {
    var v := GuardianVerdict(n.status);
    if v.None? || n.startedAt < 0 || n.completedAt < 0 then Quiet(s)
    else FinishReview(s, GuardianPending(n), Guardian, v.value, n.completedAt)
  }

  // ---------------------------------------------------------------- tool items

  predicate IsTracked(item: ThreadItem) {
    !item.UntrackedItem?
  }

  function Record(c: ToolCounts, item: ThreadItem): ToolCounts {
    match item
    case CommandExecution(_, _, _) => c.(shellCommand := c.shellCommand + 1, total := c.total + 1)
    case FileChange(_, _, _) => c.(fileChange := c.fileChange + 1, total := c.total + 1)
    case McpToolCall(_, _, _) => c.(mcpToolCall := c.mcpToolCall + 1, total := c.total + 1)
    case DynamicToolCall(_, _, _) => c.(dynamicToolCall := c.dynamicToolCall + 1, total := c.total + 1)
    case CollabAgentToolCall(_, _, _) => c.(subagentToolCall := c.subagentToolCall + 1, total := c.total + 1)
    case WebSearch(_, _) => c.(webSearch := c.webSearch + 1, total := c.total + 1)
    case ImageGeneration(_, _, _) => c.(imageGeneration := c.imageGeneration + 1, total := c.total + 1)
    case UntrackedItem => c
  }

  function ApprovableOutcome(status: ApprovableStatus): Option<ItemOutcome> {
    match status
    case InProgress => None
    case Finished => Some(ItemOutcome(ItemCompletedOk, None))
    case Broke => Some(ItemOutcome(ItemFailed, Some(ToolError)))
    case Declined => Some(ItemOutcome(ItemRejected, Some(ApprovalDenied)))
  }

  function CallOutcome(status: CallStatus): Option<ItemOutcome> {
    match status
    case CallInProgress => None
    case CallCompleted => Some(ItemOutcome(ItemCompletedOk, None))
    case CallFailed => Some(ItemOutcome(ItemFailed, Some(ToolError)))
  }

  function OutcomeOf(item: ThreadItem): Option<ItemOutcome> {
    match item
    case CommandExecution(_, status, _) => ApprovableOutcome(status)
    case FileChange(_, status, _) => ApprovableOutcome(status)
    case McpToolCall(_, status, _) => CallOutcome(status)
    case DynamicToolCall(_, status, _) => CallOutcome(status)
    case CollabAgentToolCall(_, status, _) => CallOutcome(status)
    case WebSearch(_, _) => Some(ItemOutcome(ItemCompletedOk, None))
    case ImageGeneration(_, status, _) =>
      Some(if status == "failed" || status == "error" then ItemOutcome(ItemFailed, Some(ToolError))
           else ItemOutcome(ItemCompletedOk, None))
    case UntrackedItem => None
  }

  function IngestItemStarted(s: State, threadId: ThreadId, t: TurnId, item: ThreadItem, startedAt: int): (r: Effect)
    ensures r.state == s.(itemsStarted := r.state.itemsStarted)
    ensures r.out == []
  {
    if !IsTracked(item) || startedAt < 0 then Quiet(s)
    else Quiet(s.(itemsStarted := s.itemsStarted[ToolItemKey(threadId, t, item.id) := startedAt]))
  }

  function ToolItem(s: State, key: ToolItemKey, c: Context, item: ThreadItem, outcome: ItemOutcome, startedAt: nat,
                    completedAt: nat): ToolItemParams {
    var r := SummaryOf(s, key);
    ToolItemParams(key, c.client, c.thread, item, outcome, startedAt, completedAt, Duration(startedAt, completedAt),
                   r.reviews, r.guardianReviews, r.userReviews, if r.outcome.None? then Unknown else r.outcome.value,
                   r.additionalPermissions, r.networkAccess)
  }

  /** The completion of a counted item whose start is known. */
  function FinishItem(s: State, key: ToolItemKey, item: ThreadItem, completedAt: int): (r: Effect)
    requires key in s.itemsStarted
    ensures r.state == s.(itemsStarted := s.itemsStarted - {key}, reviewSummaries := r.state.reviewSummaries)
    ensures |r.out| <= 1 && forall e <- r.out :: e.ToolItemEvent? && e.tool.key == key
  {
    var s1 := s.(itemsStarted := s.itemsStarted - {key});
    var c := ThreadContext(s1, key.threadId);
    if completedAt < 0 || c.None? then Quiet(s1)
    else
      var s2 := s1.(reviewSummaries := s1.reviewSummaries - {key});
      if OutcomeOf(item).None? then Quiet(s2)
      else Effect(s2, [ToolItemEvent(ToolItem(s1, key, c.value, item, OutcomeOf(item).value, s.itemsStarted[key],
                                              completedAt))])
  }

  function IngestItemCompleted(s: State, threadId: ThreadId, t: TurnId, item: ThreadItem, completedAt: int): (r: Effect)
    ensures r.state == s.(turns := r.state.turns, itemsStarted := r.state.itemsStarted,
                          reviewSummaries := r.state.reviewSummaries)
    ensures || r.state.itemsStarted == s.itemsStarted
            || (IsTracked(item) && r.state.itemsStarted == s.itemsStarted - {ToolItemKey(threadId, t, item.id)})
    ensures r.out == [] || (&& |r.out| == 1 && r.out[0].ToolItemEvent? && IsTracked(item)
                            && r.out[0].tool.key == ToolItemKey(threadId, t, item.id)
                            && r.out[0].tool.key in s.itemsStarted && r.out[0].tool.key !in r.state.itemsStarted)
  {
    if !IsTracked(item) || t !in s.turns then Quiet(s)
    else
      var s1 := PutTurn(s, t, s.turns[t].(toolCounts := Record(s.turns[t].toolCounts, item)));
      var key := ToolItemKey(threadId, t, item.id);
      if key !in s1.itemsStarted then Quiet(s1) else FinishItem(s1, key, item, completedAt)
  }

  // ---------------------------------------------------------------- all facts

  function Named(names: seq<string>): seq<Event> {
    seq(|names|, i requires 0 <= i < |names| => PassedThroughEvent(names[i]))
  }

  function Ingest(s: State, f: Fact): Effect {
    match f
    case Initialize(connection, client) => IngestInitialize(s, connection, client)
    case ClientRequest(key, request) => IngestRequest(s, key, request)
    case ClientResponse(key, response) => IngestResponse(s, key, response)
    case ErrorResponse(key, rejection) => IngestErrorResponse(s, key, rejection)
    case ServerRequest(approval) => IngestServerRequest(s, approval)
    case ServerResponse(id, answer, answeredAt) => IngestServerResponse(s, id, answer, answeredAt)
    case EffectivePermissions(id, empty, session, answeredAt) =>
      AnswerReview(s, id, PermissionsVerdict(empty, session), answeredAt)
    case ServerRequestAborted(id, answeredAt) => AnswerReview(s, id, Verdict(Aborted, NoResolution), answeredAt)
    case ItemStarted(threadId, t, item, startedAt) => IngestItemStarted(s, threadId, t, item, startedAt)
    case ItemCompleted(threadId, t, item, completedAt) => IngestItemCompleted(s, threadId, t, item, completedAt)
    case GuardianReviewCompleted(notice) => IngestGuardianCompleted(s, notice)
    case TurnStarted(t, startedAt) => IngestTurnStarted(s, t, startedAt)
    case TurnDiffUpdated(threadId, t, diff) => IngestDiff(s, threadId, t, diff)
    case TurnCompleted(t, end) => IngestTurnCompleted(s, t, end)
    case SubAgentThreadStarted(start) => IngestSubAgent(s, start)
    case Compaction(threadId, details) => IngestCompaction(s, threadId, details)
    case GuardianReview(threadId, details) => IngestGuardianReview(s, threadId, details)
    case TurnResolvedConfig(config) => IngestConfig(s, config)
    case TurnTokenUsage(t, threadId, usage) => IngestTokenUsage(s, t, threadId, usage)
    case TurnProfile(t, profile) => IngestProfile(s, t, profile)
    case TurnCodexError(t, threadId, error) => IngestCodexError(s, t, threadId, error)
    case PassedThrough(events) => Effect(s, Named(events))
  }

  /** A run of the reducer from a state. */
  function Replay(s: State, facts: seq<Fact>): Effect {
    if facts == [] then Quiet(s)
    else
      var front := Replay(s, facts[..|facts| - 1]);
      var last := Ingest(front.state, facts[|facts| - 1]);
      Effect(last.state, front.out + last.out)
  }

  /** The state after a run from the beginning. */
  function After(facts: seq<Fact>): State {
    Replay(Empty, facts).state
  }

  lemma ReplayStep(s: State, facts: seq<Fact>, f: Fact)
    ensures var front := Replay(s, facts);
            Replay(s, facts + [f]) == Effect(Ingest(front.state, f).state, front.out + Ingest(front.state, f).out)
  {
    assert (facts + [f])[..|facts|] == facts;
  }
}
