/** The facts the analytics reducer joins, the events it emits and the states it keeps. Payload fields that
    the reducer only copies are strings. */
module AnalyticsTypes {
  import opened Options

  type ConnectionId = nat
  type ThreadId = string
  type TurnId = string
  type ItemId = string

  /** Product, client and runtime description of a connection. */
  type ClientMetadata = string

  datatype RequestId = TextId(text: string) | NumberId(number: int)

  datatype RequestKey = RequestKey(connection: ConnectionId, id: RequestId)

  datatype ToolItemKey = ToolItemKey(threadId: ThreadId, turnId: TurnId, itemId: ItemId)

  // ---------------------------------------------------------------- threads and turns

  datatype InitializationMode = New | Forked | Resumed

  datatype ThreadMetadata = ThreadMetadata(
    sessionId: string,
    threadSource: Option<string>,
    mode: InitializationMode,
    subagentSource: Option<string>,
    parent: Option<ThreadId>)

  datatype ThreadState = ThreadState(connection: Option<ConnectionId>, metadata: Option<ThreadMetadata>)

  const NewThread := ThreadState(None, None)

  /** A thread as a start, resume or fork response describes it. */
  datatype ThreadInfo = ThreadInfo(
    id: ThreadId,
    sessionId: string,
    subagentSource: Option<string>,
    threadSource: Option<string>,
    parent: Option<ThreadId>,
    details: string)

  datatype SubAgentStart = SubAgentStart(
    threadId: ThreadId,
    sessionId: string,
    parent: Option<ThreadId>,
    subagentSource: string,
    details: string)

  datatype ConfigDetails = ConfigDetails(model: string, rest: string)

  datatype TurnConfig = TurnConfig(turnId: TurnId, threadId: ThreadId, images: nat, details: ConfigDetails)

  datatype ProtocolTurnStatus = TurnDone | TurnFailed | TurnInterrupted | TurnInProgress

  datatype TurnStatus = Completed | FailedTurn | Interrupted

  datatype TurnEnd = TurnEnd(status: ProtocolTurnStatus, error: Option<string>, completedAt: Option<int>,
                             durationMs: Option<int>)

  datatype CompletedTurn = CompletedTurn(
    status: Option<TurnStatus>, error: Option<string>, completedAt: nat, durationMs: Option<nat>)

  datatype ToolCounts = ToolCounts(
    total: nat, shellCommand: nat, fileChange: nat, mcpToolCall: nat, dynamicToolCall: nat,
    subagentToolCall: nat, webSearch: nat, imageGeneration: nat)

  const NoTools := ToolCounts(0, 0, 0, 0, 0, 0, 0, 0)

  datatype TurnState = TurnState(
    connection: Option<ConnectionId>,
    threadId: Option<ThreadId>,
    images: Option<nat>,
    config: Option<TurnConfig>,
    startedAt: Option<nat>,
    tokenUsage: Option<string>,
    profile: Option<string>,
    completed: Option<CompletedTurn>,
    codexError: Option<string>,
    latestDiff: Option<string>,
    steerCount: nat,
    toolCounts: ToolCounts)

  const NewTurn := TurnState(None, None, None, None, None, None, None, None, None, None, 0, NoTools)

  // ---------------------------------------------------------------- requests

  datatype RequestState =
    | PendingTurnStart(threadId: ThreadId, images: nat)
    | PendingTurnSteer(threadId: ThreadId, expectedTurnId: TurnId, images: nat, createdAt: nat)

  datatype ClientRequestBody =
    | TurnStartRequest(threadId: ThreadId, images: nat)
    | TurnSteerRequest(threadId: ThreadId, expectedTurnId: TurnId, images: nat, createdAt: nat)
    | OtherClientRequest

  datatype ClientResponseBody =
    | ThreadOpened(mode: InitializationMode, thread: ThreadInfo)
    | TurnStartResponse(turnId: TurnId)
    | TurnSteerResponse(turnId: TurnId)
    | OtherClientResponse

  // ---------------------------------------------------------------- tool items

  datatype ApprovableStatus = InProgress | Finished | Broke | Declined

  datatype CallStatus = CallInProgress | CallCompleted | CallFailed

  datatype ThreadItem =
    | CommandExecution(id: ItemId, approvable: ApprovableStatus, details: string)
    | FileChange(id: ItemId, approvable: ApprovableStatus, details: string)
    | McpToolCall(id: ItemId, call: CallStatus, details: string)
    | DynamicToolCall(id: ItemId, call: CallStatus, details: string)
    | CollabAgentToolCall(id: ItemId, call: CallStatus, details: string)
    | WebSearch(id: ItemId, details: string)
    | ImageGeneration(id: ItemId, status: string, details: string)
    | UntrackedItem

  datatype TerminalStatus = ItemCompletedOk | ItemFailed | ItemRejected

  datatype FailureKind = ToolError | ApprovalDenied

  datatype ItemOutcome = ItemOutcome(status: TerminalStatus, failure: Option<FailureKind>)

  // ---------------------------------------------------------------- reviews

  datatype Reviewer = Guardian | User

  datatype ReviewStatus = Approved | Denied | Aborted | TimedOut

  datatype ReviewResolution = NoResolution | SessionApproval | ExecPolicyAmendment | NetworkPolicyAmendment

  datatype ReviewSubject = CommandSubject | FileSubject | McpSubject | PermissionsSubject | NetworkSubject

  datatype ReviewTrigger = Initial | SandboxDenial | NetworkPolicyDenial | ExecveIntercept

  datatype ReviewId = UserReview(request: RequestId) | GuardianReviewId(id: string)

  datatype PendingReview = PendingReview(
    threadId: ThreadId,
    turnId: TurnId,
    itemId: Option<ItemId>,
    reviewId: ReviewId,
    subject: ReviewSubject,
    subjectName: string,
    trigger: ReviewTrigger,
    startedAt: nat,
    additionalPermissions: bool,
    networkAccess: bool)

  datatype FinalOutcome =
    | Unknown | GuardianApproved | GuardianDenied | GuardianAborted
    | UserApproved | UserApprovedForSession | UserDenied | UserAborted

  datatype ReviewSummary = ReviewSummary(
    reviews: nat, guardianReviews: nat, userReviews: nat, outcome: Option<FinalOutcome>,
    additionalPermissions: bool, networkAccess: bool)

  const NoReviews := ReviewSummary(0, 0, 0, None, false, false)

  /** What an approval request asks about. */
  datatype ApprovalAsk =
    | AskCommand(networkContext: bool, networkAmendments: bool, permissions: Option<bool>, approvalId: bool)
    | AskFileChange(grantRoot: bool)
    | AskPermissions(network: bool, fileSystem: bool)

  datatype ApprovalRequest = ApprovalRequest(
    id: RequestId, threadId: ThreadId, turnId: TurnId, itemId: ItemId, startedAt: int, ask: ApprovalAsk)

  datatype CommandDecision =
    | Accept | AcceptForSession | AcceptWithExecPolicyAmendment | ApplyNetworkPolicyAmendment(allow: bool) | Decline
    | Cancel

  datatype FileDecision = FileAccept | FileAcceptForSession | FileDecline | FileCancel

  datatype ApprovalAnswer =
    | CommandAnswer(command: CommandDecision)
    | FileAnswer(file: FileDecision)
    | OtherAnswer

  datatype GuardianStatus = GuardianInProgress | GuardianApproves | GuardianDenies | GuardianTimedOut | GuardianAborts

  datatype GuardianAction =
    | GuardCommand | GuardExecve | GuardApplyPatch | GuardNetworkAccess
    | GuardRequestPermissions(network: bool, fileSystem: bool)
    | GuardMcpToolCall(tool: string)

  datatype GuardianNotice = GuardianNotice(
    threadId: ThreadId, turnId: TurnId, targetItem: Option<ItemId>, reviewId: string,
    status: GuardianStatus, action: GuardianAction, startedAt: int, completedAt: int)

  datatype SteerRejection =
    | NoActiveTurn | ExpectedTurnMismatch | NonSteerableReview | NonSteerableCompact | EmptyInput | InputTooLarge

  // ---------------------------------------------------------------- facts

  datatype Fact =
    | Initialize(connection: ConnectionId, client: ClientMetadata)
    | ClientRequest(key: RequestKey, request: ClientRequestBody)
    | ClientResponse(key: RequestKey, response: ClientResponseBody)
    | ErrorResponse(key: RequestKey, rejection: Option<SteerRejection>)
    | ServerRequest(approval: Option<ApprovalRequest>)
    | ServerResponse(id: RequestId, answer: ApprovalAnswer, answeredAt: nat)
    | EffectivePermissions(id: RequestId, empty: bool, session: bool, answeredAt: nat)
    | ServerRequestAborted(id: RequestId, answeredAt: nat)
    | ItemStarted(threadId: ThreadId, turnId: TurnId, item: ThreadItem, startedAtMs: int)
    | ItemCompleted(threadId: ThreadId, turnId: TurnId, item: ThreadItem, completedAtMs: int)
    | GuardianReviewCompleted(notice: GuardianNotice)
    | TurnStarted(turnId: TurnId, startedAt: Option<int>)
    | TurnDiffUpdated(threadId: ThreadId, turnId: TurnId, diff: string)
    | TurnCompleted(turnId: TurnId, end: TurnEnd)
    | SubAgentThreadStarted(start: SubAgentStart)
    | Compaction(threadId: ThreadId, details: string)
    | GuardianReview(threadId: ThreadId, details: string)
    | TurnResolvedConfig(config: TurnConfig)
    | TurnTokenUsage(turnId: TurnId, threadId: ThreadId, usage: string)
    | TurnProfile(turnId: TurnId, profile: string)
    | TurnCodexError(turnId: TurnId, threadId: ThreadId, error: string)
    | PassedThrough(events: seq<string>)

  // ---------------------------------------------------------------- events

  datatype TurnEventParams = TurnEventParams(
    turnId: TurnId,
    threadId: ThreadId,
    client: ClientMetadata,
    thread: ThreadMetadata,
    images: nat,
    details: ConfigDetails,
    profile: string,
    completed: CompletedTurn,
    startedAt: Option<nat>,
    tokenUsage: Option<string>,
    codexError: Option<string>,
    steerCount: nat,
    toolCounts: ToolCounts)

  datatype ToolItemParams = ToolItemParams(
    key: ToolItemKey,
    client: ClientMetadata,
    thread: ThreadMetadata,
    item: ThreadItem,
    outcome: ItemOutcome,
    startedAt: nat,
    completedAt: nat,
    durationMs: Option<nat>,
    reviewCount: nat,
    guardianReviewCount: nat,
    userReviewCount: nat,
    finalOutcome: FinalOutcome,
    additionalPermissions: bool,
    networkAccess: bool)

  datatype ReviewParams = ReviewParams(
    review: PendingReview,
    client: ClientMetadata,
    thread: ThreadMetadata,
    reviewer: Reviewer,
    status: ReviewStatus,
    resolution: ReviewResolution,
    completedAt: nat,
    durationMs: Option<nat>)

  datatype SteerParams = SteerParams(
    request: RequestState,
    client: ClientMetadata,
    thread: ThreadMetadata,
    acceptedTurn: Option<TurnId>,
    rejection: Option<SteerRejection>)

  datatype Event =
    | ThreadInitialized(threadId: ThreadId, openedBy: Option<ClientMetadata>, metadata: ThreadMetadata, details: string)
    | GuardianEvent(sessionId: string, client: ClientMetadata, details: string)
    | CompactionEvent(threadId: ThreadId, client: ClientMetadata, thread: ThreadMetadata, details: string)
    | TurnEvent(turn: TurnEventParams)
    | AcceptedLinesEvent(turnId: TurnId, threadId: ThreadId, model: string, added: nat, deleted: nat)
    | ToolItemEvent(tool: ToolItemParams)
    | ReviewEvent(review: ReviewParams)
    | TurnSteerEvent(steer: SteerParams)
    | PassedThroughEvent(name: string)
}
