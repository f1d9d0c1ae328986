/** Approval reviews: which are open, what is recorded for each item and what a tool-item event carries. */
module ReducerReviews {
  import opened Options
  import opened AnalyticsTypes
  import opened Reducer
  import opened ReducerTurns

  // ---------------------------------------------------------------- open approvals

  predicate Asks(f: Fact, id: RequestId) {
    f.ServerRequest? && f.approval.Some? && f.approval.value.id == id && PendingOf(f.approval.value).Some?
  }

  /** The verdict of a fact that answers an approval request. */
  function UserVerdict(f: Fact): Option<Verdict> {
    match f
    case ServerResponse(_, CommandAnswer(d), _) => Some(CommandVerdict(d))
    case ServerResponse(_, FileAnswer(d), _) => Some(FileVerdict(d))
    case EffectivePermissions(_, empty, session, _) => Some(PermissionsVerdict(empty, session))
    case ServerRequestAborted(_, _) => Some(Verdict(Aborted, NoResolution))
    case _ => None
  }

  predicate Decides(f: Fact, id: RequestId) {
    UserVerdict(f).Some? && f.id == id
  }

  /** The last approval request under the id that nothing has decided since. */
  function OpenApproval(facts: seq<Fact>, id: RequestId): Option<PendingReview> {
    if facts == [] then None
    else
      var f := facts[|facts| - 1];
      if Asks(f, id) then PendingOf(f.approval.value)
      else if Decides(f, id) then None
      else OpenApproval(facts[..|facts| - 1], id)
  }

  predicate ConcernsApprovals(f: Fact) {
    f.ServerRequest? || UserVerdict(f).Some?
  }

  function ApprovalsAfter(pending: map<RequestId, PendingReview>, f: Fact): map<RequestId, PendingReview> {
    if f.ServerRequest? && f.approval.Some? && PendingOf(f.approval.value).Some?
    then pending[f.approval.value.id := PendingOf(f.approval.value).value]
    else if UserVerdict(f).Some? then pending - {f.id}
    else pending
  }

  lemma ApprovalsUntouched(s: State, f: Fact)
    requires !ConcernsApprovals(f)
    ensures Ingest(s, f).state.pendingReviews == s.pendingReviews
  {
  }

  lemma AnswerTakes(s: State, id: RequestId, v: Verdict, at: nat)
    ensures AnswerReview(s, id, v, at).state.pendingReviews == s.pendingReviews - {id}
  {
    if id !in s.pendingReviews {
      assert s.pendingReviews - {id} == s.pendingReviews;
    }
  }

  lemma StepApprovals(s: State, f: Fact)
    ensures Ingest(s, f).state.pendingReviews == ApprovalsAfter(s.pendingReviews, f)
  {
    if !ConcernsApprovals(f) {
      ApprovalsUntouched(s, f);
    } else if UserVerdict(f).Some? {
      AnswerTakes(s, f.id, UserVerdict(f).value, f.answeredAt);
    }
  }

  lemma LookupAfter(pending: map<RequestId, PendingReview>, f: Fact, id: RequestId)
    ensures Lookup(ApprovalsAfter(pending, f), id)
            == if Asks(f, id) then PendingOf(f.approval.value)
               else if Decides(f, id) then None
               else Lookup(pending, id)
  {
  }

  /** The reducer keeps under each id exactly the last undecided approval request. */
  lemma {:induction false} ApprovalsAreOpen(facts: seq<Fact>, id: RequestId)
    ensures Lookup(After(facts).pendingReviews, id) == OpenApproval(facts, id)
    decreases |facts|
  {
    if facts != [] {
      var front, f := facts[..|facts| - 1], facts[|facts| - 1];
      ApprovalsAreOpen(front, id);
      StepApprovals(After(front), f);
      LookupAfter(After(front).pendingReviews, f, id);
    }
  }

  lemma {:induction false} OpenApprovalKeepsId(facts: seq<Fact>, id: RequestId)
    requires OpenApproval(facts, id).Some?
    ensures OpenApproval(facts, id).value.reviewId == UserReview(id)
    decreases |facts|
  {
    var f := facts[|facts| - 1];
    if !Asks(f, id) {
      OpenApprovalKeepsId(facts[..|facts| - 1], id);
    }
  }

  // ---------------------------------------------------------------- late answers

  predicate NoneAsked(facts: seq<Fact>, id: RequestId) {
    forall f <- facts :: !Asks(f, id)
  }

  lemma {:induction false} StaysDecided(facts: seq<Fact>, more: seq<Fact>, id: RequestId)
    requires OpenApproval(facts, id).None? && NoneAsked(more, id)
    ensures OpenApproval(facts + more, id).None?
    decreases |more|
  {
    if more == [] {
      assert facts + more == facts;
    } else {
      var front := more[..|more| - 1];
      StaysDecided(facts, front, id);
      assert (facts + more)[..|facts + more| - 1] == facts + front;
    }
  }

  lemma UnmatchedDecision(s: State, late: Fact, id: RequestId)
    requires Decides(late, id) && id !in s.pendingReviews
    ensures Ingest(s, late) == Quiet(s)
  {
  }

  /** Once an approval was answered or aborted, a late answer under its id changes and emits nothing until
      another approval is asked for there. */
  lemma LateDecisionIsIgnored(facts: seq<Fact>, decision: Fact, more: seq<Fact>, late: Fact, id: RequestId)
    requires Decides(decision, id) && NoneAsked(more, id) && Decides(late, id)
    ensures Ingest(After(facts + [decision] + more), late) == Quiet(After(facts + [decision] + more))
  {
    var decided := facts + [decision];
    assert decided[..|facts|] == facts;
    StaysDecided(decided, more, id);
    ApprovalsAreOpen(decided + more, id);
    UnmatchedDecision(After(decided + more), late, id);
  }

  // ---------------------------------------------------------------- review events

  predicate IsUserReview(e: Event, id: RequestId) {
    e.ReviewEvent? && e.review.reviewer == User && e.review.review.reviewId == UserReview(id)
  }

  function UserReviews(out: seq<Event>, id: RequestId): nat {
    if out == [] then 0 else UserReviews(out[..|out| - 1], id) + One(IsUserReview(out[|out| - 1], id))
  }

  lemma {:induction false} UserReviewsAppend(a: seq<Event>, b: seq<Event>, id: RequestId)
    ensures UserReviews(a + b, id) == UserReviews(a, id) + UserReviews(b, id)
    decreases |b|
  {
    if b == [] {
      assert a + b == a;
    } else {
      assert (a + b)[..|a + b| - 1] == a + b[..|b| - 1];
      UserReviewsAppend(a, b[..|b| - 1], id);
    }
  }

  lemma {:induction false} NoUserReviews(out: seq<Event>, id: RequestId)
    requires forall e <- out :: !IsUserReview(e, id)
    ensures UserReviews(out, id) == 0
    decreases |out|
  {
    if out != [] {
      NoUserReviews(out[..|out| - 1], id);
    }
  }

  lemma OthersReviewNothing(s: State, f: Fact, id: RequestId)
    requires UserVerdict(f).None?
    ensures forall e <- Ingest(s, f).out :: !IsUserReview(e, id)
  {
  }

  lemma AnswerReviews(s: State, id: RequestId, v: Verdict, at: nat)
    ensures var out := AnswerReview(s, id, v, at).out;
            out == [] || (&& |out| == 1 && out[0].ReviewEvent? && id in s.pendingReviews
                          && out[0].review.review == s.pendingReviews[id] && out[0].review.reviewer == User)
  {
  }

  lemma StepReviews(s: State, f: Fact, id: RequestId)
    requires UserVerdict(f).Some? && f.id in s.pendingReviews ==> s.pendingReviews[f.id].reviewId == UserReview(f.id)
    ensures UserReviews(Ingest(s, f).out, id) <= One(Decides(f, id) && id in s.pendingReviews)
  {
    var out := Ingest(s, f).out;
    if UserVerdict(f).Some? {
      AnswerReviews(s, f.id, UserVerdict(f).value, f.answeredAt);
      assert out != [] ==> out[..0] == [];
    } else {
      OthersReviewNothing(s, f, id);
      NoUserReviews(out, id);
    }
  }

  function Approvals(facts: seq<Fact>, id: RequestId): nat {
    if facts == [] then 0 else Approvals(facts[..|facts| - 1], id) + One(Asks(facts[|facts| - 1], id))
  }

  lemma DecidedIdIsOpen(facts: seq<Fact>, f: Fact)
    requires UserVerdict(f).Some? && f.id in After(facts).pendingReviews
    ensures After(facts).pendingReviews[f.id].reviewId == UserReview(f.id)
  {
    ApprovalsAreOpen(facts, f.id);
    OpenApprovalKeepsId(facts, f.id);
  }

  /** Under every id, the user review events emitted, plus one when an approval is still open, never
      outnumber the approval requests. */
  lemma {:induction false} ReviewsWithinApprovals(facts: seq<Fact>, id: RequestId)
    ensures UserReviews(Replay(Empty, facts).out, id) + One(OpenApproval(facts, id).Some?) <= Approvals(facts, id)
    decreases |facts|
  {
    if facts != [] {
      var front, f := facts[..|facts| - 1], facts[|facts| - 1];
      ReviewsWithinApprovals(front, id);
      UserReviewsAppend(Replay(Empty, front).out, Ingest(After(front), f).out, id);
      if UserVerdict(f).Some? && f.id in After(front).pendingReviews {
        DecidedIdIsOpen(front, f);
      }
      StepReviews(After(front), f, id);
      ApprovalsAreOpen(front, id);
    }
  }

  // ---------------------------------------------------------------- what is recorded for an item

  datatype FinishedReview = FinishedReview(review: PendingReview, reviewer: Reviewer, verdict: Verdict)

  /** The review a fact finishes after a run: a user's answer to an open approval, or a guardian's own. */
  function FinishedBy(facts: seq<Fact>, f: Fact): Option<FinishedReview> {
    if UserVerdict(f).Some? then
      var open := OpenApproval(facts, f.id);
      if open.None? then None else Some(FinishedReview(open.value, User, UserVerdict(f).value))
    else if f.GuardianReviewCompleted? then
      var n := f.notice;
      if GuardianVerdict(n.status).None? || n.startedAt < 0 || n.completedAt < 0 then None
      else Some(FinishedReview(GuardianPending(n), Guardian, GuardianVerdict(n.status).value))
    else None
  }

  function NameOf(subject: ReviewSubject): string {
    match subject
    case CommandSubject => "command_execution"
    case FileSubject => "apply_patch"
    case PermissionsSubject => "permissions"
    case NetworkSubject => "network_access"
    case McpSubject => ""
  }

  /** Except for an intercepted execve, what triggered a review follows from the access it asks for; except for an
      MCP tool, its name from its subject. */
  predicate Consistent(p: PendingReview) {
    && (p.trigger == ExecveIntercept ==> p.subject in {CommandSubject, NetworkSubject})
    && (p.trigger != ExecveIntercept ==>
          p.trigger == if p.networkAccess then NetworkPolicyDenial
                       else if p.additionalPermissions then SandboxDenial
                       else Initial)
    && (p.subject == NetworkSubject ==> p.networkAccess)
    && (p.subject in {FileSubject, McpSubject} ==> !p.networkAccess)
    && (p.subject != McpSubject ==> p.subjectName == NameOf(p.subject))
  }

  lemma {:induction false} OpenIsConsistent(facts: seq<Fact>, id: RequestId)
    ensures var open := OpenApproval(facts, id);
            open.Some? ==> Consistent(open.value) && open.value.reviewId == UserReview(id) && open.value.itemId.Some?
    decreases |facts|
  {
    if facts != [] {
      OpenIsConsistent(facts[..|facts| - 1], id);
    }
  }

  /** Every review that any run finishes is consistent, whoever reviewed it, and carries the id it was asked under. */
  lemma FinishedIsConsistent(facts: seq<Fact>, f: Fact)
    requires FinishedBy(facts, f).Some?
    ensures var done := FinishedBy(facts, f).value;
            && Consistent(done.review)
            && done.review.reviewId
               == (if f.GuardianReviewCompleted? then GuardianReviewId(f.notice.reviewId) else UserReview(f.id))
            && (done.reviewer == Guardian <==> f.GuardianReviewCompleted?)
  {
    if !f.GuardianReviewCompleted? {
      OpenIsConsistent(facts, f.id);
    }
  }

  /** A completion of the item that reports or drops what was recorded for it. */
  predicate Clears(s: State, f: Fact, key: ToolItemKey) {
    && f.ItemCompleted? && IsTracked(f.item) && f.turnId in s.turns
    && key == ToolItemKey(f.threadId, f.turnId, f.item.id) && key in s.itemsStarted
    && f.completedAtMs >= 0 && ThreadContext(s, f.threadId).Some?
  }

  /** The reviews finished for an item since its last clearing completion. */
  function ReviewsFor(facts: seq<Fact>, key: ToolItemKey): seq<FinishedReview> {
    if facts == [] then []
    else
      var front, f := facts[..|facts| - 1], facts[|facts| - 1];
      var done := FinishedBy(front, f);
      if Clears(After(front), f, key) then []
      else if done.Some? && SummaryKey(done.value.review) == Some(key) then ReviewsFor(front, key) + [done.value]
      else ReviewsFor(front, key)
  }

  function CountBy(rs: seq<FinishedReview>, reviewer: Reviewer): nat {
    if rs == [] then 0 else CountBy(rs[..|rs| - 1], reviewer) + One(rs[|rs| - 1].reviewer == reviewer)
  }

  function LastOutcome(rs: seq<FinishedReview>): Option<FinalOutcome> {
    if rs == [] then None else Some(FinalOutcomeOf(rs[|rs| - 1].reviewer, rs[|rs| - 1].verdict))
  }

  function Summarise(rs: seq<FinishedReview>): ReviewSummary {
    ReviewSummary(|rs|, CountBy(rs, Guardian), CountBy(rs, User), LastOutcome(rs),
                  exists r <- rs :: r.review.additionalPermissions, exists r <- rs :: r.review.networkAccess)
  }

  lemma SummariseOneMore(rs: seq<FinishedReview>, r: FinishedReview)
    ensures Summarise(rs + [r]) == AddReview(Summarise(rs), r.review, r.reviewer, r.verdict)
  {
    assert (rs + [r])[..|rs|] == rs;
    assert forall x <- rs + [r] :: x in rs || x == r;
    assert forall x <- rs :: x in rs + [r];
    assert r in rs + [r];
  }

  lemma SummariesUntouched(s: State, f: Fact)
    requires UserVerdict(f).None? && !f.GuardianReviewCompleted? && !f.ItemCompleted?
    ensures Ingest(s, f).state.reviewSummaries == s.reviewSummaries
  {
  }

  lemma ItemSummaries(s: State, threadId: ThreadId, t: TurnId, item: ThreadItem, at: int, key: ToolItemKey)
    ensures SummaryOf(IngestItemCompleted(s, threadId, t, item, at).state, key)
            == if Clears(s, ItemCompleted(threadId, t, item, at), key) then NoReviews else SummaryOf(s, key)
  {
  }

  function WithReview(before: ReviewSummary, done: Option<FinishedReview>, key: ToolItemKey): ReviewSummary {
    if done.Some? && SummaryKey(done.value.review) == Some(key)
    then AddReview(before, done.value.review, done.value.reviewer, done.value.verdict)
    else before
  }

  lemma RecordCounts(s: State, p: PendingReview, reviewer: Reviewer, v: Verdict, key: ToolItemKey)
    ensures SummaryOf(RecordReview(s, p, reviewer, v), key)
            == WithReview(SummaryOf(s, key), Some(FinishedReview(p, reviewer, v)), key)
  {
    var k := SummaryKey(p);
    if k == Some(key) {
      assert RecordReview(s, p, reviewer, v).reviewSummaries[key] == AddReview(SummaryOf(s, key), p, reviewer, v);
    } else if k.Some? {
      assert k.value != key;
    }
  }

  lemma FinishRecords(s: State, p: PendingReview, reviewer: Reviewer, v: Verdict, at: nat, key: ToolItemKey)
    ensures SummaryOf(FinishReview(s, p, reviewer, v, at).state, key)
            == WithReview(SummaryOf(s, key), Some(FinishedReview(p, reviewer, v)), key)
  {
    RecordCounts(s, p, reviewer, v, key);
    assert FinishReview(s, p, reviewer, v, at).state == RecordReview(s, p, reviewer, v);
  }

  lemma AnswerRecords(s: State, id: RequestId, v: Verdict, at: nat, key: ToolItemKey)
    ensures var open := Lookup(s.pendingReviews, id);
            SummaryOf(AnswerReview(s, id, v, at).state, key)
            == WithReview(SummaryOf(s, key), if open.None? then None else Some(FinishedReview(open.value, User, v)),
                          key)
  {
    if id in s.pendingReviews {
      FinishRecords(s.(pendingReviews := s.pendingReviews - {id}), s.pendingReviews[id], User, v, at, key);
    }
  }

  lemma StepSummary(facts: seq<Fact>, f: Fact, key: ToolItemKey)
    ensures SummaryOf(Ingest(After(facts), f).state, key)
            == if Clears(After(facts), f, key) then NoReviews
               else WithReview(SummaryOf(After(facts), key), FinishedBy(facts, f), key)
  {
    var s := After(facts);
    if UserVerdict(f).Some? {
      ApprovalsAreOpen(facts, f.id);
      AnswerRecords(s, f.id, UserVerdict(f).value, f.answeredAt, key);
    } else if f.GuardianReviewCompleted? {
      var n := f.notice;
      if FinishedBy(facts, f).Some? {
        FinishRecords(s, GuardianPending(n), Guardian, GuardianVerdict(n.status).value, n.completedAt, key);
      }
    } else if f.ItemCompleted? {
      ItemSummaries(s, f.threadId, f.turnId, f.item, f.completedAtMs, key);
    } else {
      SummariesUntouched(s, f);
    }
  }

  /** The summary kept for an item is the summary of exactly the reviews finished for it since its last
      clearing completion. */
  lemma {:induction false} SummaryIsHistory(facts: seq<Fact>, key: ToolItemKey)
    ensures SummaryOf(After(facts), key) == Summarise(ReviewsFor(facts, key))
    decreases |facts|
  {
    if facts != [] {
      var front, f := facts[..|facts| - 1], facts[|facts| - 1];
      SummaryIsHistory(front, key);
      StepSummary(front, f, key);
      var done := FinishedBy(front, f);
      if done.Some? {
        SummariseOneMore(ReviewsFor(front, key), done.value);
      }
    }
  }

  predicate Permits(f: Fact) {
    match f
    case ServerResponse(_, CommandAnswer(d), _) =>
      d in {Accept, AcceptForSession, AcceptWithExecPolicyAmendment, ApplyNetworkPolicyAmendment(true)}
    case ServerResponse(_, FileAnswer(d), _) => d in {FileAccept, FileAcceptForSession}
    case EffectivePermissions(_, empty, _, _) => !empty
    case _ => false
  }

  predicate Refuses(f: Fact) {
    match f
    case ServerResponse(_, CommandAnswer(d), _) => d in {Decline, ApplyNetworkPolicyAmendment(false)}
    case ServerResponse(_, FileAnswer(d), _) => d == FileDecline
    case EffectivePermissions(_, empty, _, _) => empty
    case _ => false
  }

  predicate LastsTheSession(f: Fact) {
    match f
    case ServerResponse(_, answer, _) => answer in {CommandAnswer(AcceptForSession), FileAnswer(FileAcceptForSession)}
    case EffectivePermissions(_, _, session, _) => session
    case _ => false
  }

  /** The outcome a fact stands for, in terms of what it permits or refuses. */
  function StandsFor(f: Fact): FinalOutcome {
    if f.GuardianReviewCompleted? then
      (if f.notice.status == GuardianApproves then GuardianApproved
       else if f.notice.status == GuardianDenies then GuardianDenied
       else GuardianAborted)
    else if Permits(f) then (if LastsTheSession(f) then UserApprovedForSession else UserApproved)
    else if Refuses(f) then UserDenied
    else UserAborted
  }

  lemma FinishedOutcome(facts: seq<Fact>, f: Fact)
    requires FinishedBy(facts, f).Some?
    ensures var done := FinishedBy(facts, f).value; FinalOutcomeOf(done.reviewer, done.verdict) == StandsFor(f)
  {
  }

  /** A fact that finishes a review of an item makes its own outcome the item's, whatever was recorded before. */
  lemma LastReviewDecides(facts: seq<Fact>, f: Fact, key: ToolItemKey)
    requires FinishedBy(facts, f).Some? && SummaryKey(FinishedBy(facts, f).value.review) == Some(key)
    ensures LastOutcome(ReviewsFor(facts + [f], key)) == Some(StandsFor(f))
    ensures SummaryOf(After(facts + [f]), key).outcome == Some(StandsFor(f))
  {
    FinishedOutcome(facts, f);
    assert (facts + [f])[..|facts|] == facts;
    SummaryIsHistory(facts + [f], key);
  }

  /** Only reviews of the item itself are counted for it, none of them about permissions or network. */
  lemma {:induction false} ReviewsDoNotLeak(facts: seq<Fact>, key: ToolItemKey)
    ensures forall r <- ReviewsFor(facts, key) ::
              && r.review.threadId == key.threadId && r.review.turnId == key.turnId
              && r.review.itemId == Some(key.itemId)
              && r.review.subject != PermissionsSubject && r.review.subject != NetworkSubject
    decreases |facts|
  {
    if facts != [] {
      ReviewsDoNotLeak(facts[..|facts| - 1], key);
    }
  }

  lemma {:induction false} EveryReviewHasAReviewer(rs: seq<FinishedReview>)
    ensures |rs| == CountBy(rs, Guardian) + CountBy(rs, User)
    decreases |rs|
  {
    if rs != [] {
      EveryReviewHasAReviewer(rs[..|rs| - 1]);
    }
  }

  lemma ItemEventCarries(s: State, f: Fact, e: Event)
    requires e in Ingest(s, f).out && e.ToolItemEvent?
    ensures Clears(s, f, e.tool.key)
    ensures var r := SummaryOf(s, e.tool.key);
            && e.tool.reviewCount == r.reviews && e.tool.guardianReviewCount == r.guardianReviews
            && e.tool.userReviewCount == r.userReviews
            && e.tool.finalOutcome == (if r.outcome.None? then Unknown else r.outcome.value)
            && e.tool.additionalPermissions == r.additionalPermissions && e.tool.networkAccess == r.networkAccess
  {
    if !f.ItemCompleted? {
      OnlyItemsEmitTools(s, f);
    }
  }

  /** A tool-item event that a fact emits after any run carries exactly the reviews finished for its item
      since the item's last clearing completion, and clears them. */
  lemma ToolItemEventCarriesReviews(facts: seq<Fact>, f: Fact, e: Event)
    requires e in Ingest(After(facts), f).out && e.ToolItemEvent?
    ensures var rs := ReviewsFor(facts, e.tool.key);
            && e.tool.guardianReviewCount == CountBy(rs, Guardian)
            && e.tool.userReviewCount == CountBy(rs, User)
            && e.tool.reviewCount == |rs| == e.tool.guardianReviewCount + e.tool.userReviewCount
            && e.tool.finalOutcome == (if rs == [] then Unknown else LastOutcome(rs).value)
            && (e.tool.additionalPermissions <==> exists r <- rs :: r.review.additionalPermissions)
            && (e.tool.networkAccess <==> exists r <- rs :: r.review.networkAccess)
    ensures ReviewsFor(facts + [f], e.tool.key) == []
  {
    ItemEventCarries(After(facts), f, e);
    SummaryIsHistory(facts, e.tool.key);
    EveryReviewHasAReviewer(ReviewsFor(facts, e.tool.key));
    assert (facts + [f])[..|facts|] == facts;
  }
}
