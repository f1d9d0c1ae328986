/** The join of the four facts a turn event is made of, fed in any order among facts about other turns. */
module ReducerJoin {
  import opened Options
  import opened AnalyticsTypes
  import opened Reducer
  import opened ReducerContext
  import opened ReducerRequests
  import opened ReducerTurns

  /** What is fed for one turn: the answered request, the resolved config, the profile and the end. `known` are
      the threads that the facts about the turn may name. */
  datatype Feed = Feed(key: RequestKey, threadId: ThreadId, images: nat, config: TurnConfig, profile: string,
                       end: TurnEnd, known: set<ThreadId>)

  function Turn(j: Feed): TurnId {
    j.config.turnId
  }

  function PartFact(j: Feed, part: Part): Fact {
    match part
    case StartPart => ClientResponse(j.key, TurnStartResponse(Turn(j)))
    case ConfigPart => TurnResolvedConfig(j.config)
    case ProfilePart => TurnProfile(Turn(j), j.profile)
    case CompletionPart => TurnCompleted(Turn(j), j.end)
  }

  /** A fact about other turns, other requests, other threads opened and other connections initialised. */
  predicate Foreign(f: Fact, j: Feed) {
    match f
    case Initialize(connection, _) => connection != j.key.connection
    case ClientRequest(key, _) => key != j.key
    case ErrorResponse(key, _) => key != j.key
    case ClientResponse(key, response) => key != j.key && ForeignResponse(response, j)
    case ItemCompleted(_, t, _, _) => t != Turn(j)
    case TurnStarted(t, _) => t != Turn(j)
    case TurnDiffUpdated(_, t, _) => t != Turn(j)
    case TurnCompleted(t, _) => t != Turn(j)
    case TurnResolvedConfig(config) => config.turnId != Turn(j)
    case TurnTokenUsage(t, _, _) => t != Turn(j)
    case TurnProfile(t, _) => t != Turn(j)
    case TurnCodexError(t, _, _) => t != Turn(j)
    case _ => true
  }

  predicate ForeignResponse(response: ClientResponseBody, j: Feed) {
    match response
    case ThreadOpened(_, thread) => thread.id !in j.known
    case TurnStartResponse(t) => t != Turn(j)
    case TurnSteerResponse(t) => t != Turn(j)
    case OtherClientResponse => true
  }

  /** A fact about the turn itself that is none of the four: its start time, a diff, a token count, an error, a
      completed item or the answer to a steer. */
  predicate Side(f: Fact, j: Feed) {
    match f
    case TurnStarted(t, _) => t == Turn(j)
    case TurnDiffUpdated(threadId, t, _) => t == Turn(j) && threadId in j.known
    case TurnTokenUsage(t, threadId, _) => t == Turn(j) && threadId in j.known
    case TurnCodexError(t, threadId, _) => t == Turn(j) && threadId in j.known
    case ItemCompleted(_, t, _, _) => t == Turn(j)
    case ClientResponse(key, TurnSteerResponse(t)) => key != j.key && t == Turn(j)
    case _ => false
  }

  /** Which parts have been fed, and whether the config came after the start response. */
  datatype Progress = Progress(start: bool, config: bool, profile: bool, completion: bool, configLast: bool)

  const Nothing := Progress(false, false, false, false, false)

  predicate Got(p: Progress, part: Part) {
    match part
    case StartPart => p.start
    case ConfigPart => p.config
    case ProfilePart => p.profile
    case CompletionPart => p.completion
  }

  function Advance(p: Progress, part: Part): Progress {
    match part
    case StartPart => p.(start := true, configLast := false)
    case ConfigPart => p.(config := true, configLast := true)
    case ProfilePart => p.(profile := true)
    case CompletionPart => p.(completion := true)
  }

  predicate Complete(p: Progress) {
    p.start && p.config && p.profile && p.completion
  }

  function PartOf(f: Fact, j: Feed): Option<Part> {
    if f == PartFact(j, StartPart) then Some(StartPart)
    else if f == PartFact(j, ConfigPart) then Some(ConfigPart)
    else if f == PartFact(j, ProfilePart) then Some(ProfilePart)
    else if f == PartFact(j, CompletionPart) then Some(CompletionPart)
    else None
  }

  function ProgressOf(facts: seq<Fact>, j: Feed): Progress {
    if facts == [] then Nothing
    else
      var front := ProgressOf(facts[..|facts| - 1], j);
      var part := PartOf(facts[|facts| - 1], j);
      if part.None? then front else Advance(front, part.value)
  }

  /** A part that was not fed yet, or another fact that may come in between. */
  predicate MayFeed(f: Fact, j: Feed, p: Progress) {
    if PartOf(f, j).Some? then !Got(p, PartOf(f, j).value) else Foreign(f, j) || Side(f, j)
  }

  /** Foreign and side facts with no part fed twice. */
  predicate Feeds(facts: seq<Fact>, j: Feed) {
    facts == []
    || (var front, f := facts[..|facts| - 1], facts[|facts| - 1];
        Feeds(front, j) && MayFeed(f, j, ProgressOf(front, j)))
  }

  /** A feed without side facts. */
  predicate Plain(facts: seq<Fact>, j: Feed) {
    forall f <- facts :: !Side(f, j)
  }

  /** The thread the facts about the turn named last, and the latest of the values that only side facts bring.
      An error names the thread only when nothing has named one before. */
  datatype Details = Details(threadId: Option<ThreadId>, startedAt: Option<nat>, usage: Option<string>,
                             error: Option<string>)

  const NoDetails := Details(None, None, None, None)

  function Detail(d: Details, f: Fact, j: Feed): Details {
    if f == PartFact(j, StartPart) then d.(threadId := Some(j.threadId))
    else if f == PartFact(j, ConfigPart) then d.(threadId := Some(j.config.threadId))
    else if !Side(f, j) then d
    else match f
      case TurnStarted(_, at) => d.(startedAt := OptionNonNegative(at))
      case TurnDiffUpdated(threadId, _, _) => d.(threadId := Some(threadId))
      case TurnTokenUsage(_, threadId, usage) => d.(threadId := Some(threadId), usage := Some(usage))
      case TurnCodexError(_, threadId, error) =>
        d.(threadId := if d.threadId.None? then Some(threadId) else d.threadId, error := Some(error))
      case _ => d
  }

  function DetailsOf(facts: seq<Fact>, j: Feed): Details {
    if facts == [] then NoDetails else Detail(DetailsOf(facts[..|facts| - 1], j), facts[|facts| - 1], j)
  }

  /** The facts up to the last of the four parts. */
  function Cut(facts: seq<Fact>, j: Feed): seq<Fact> {
    if facts == [] || !Complete(ProgressOf(facts[..|facts| - 1], j)) then facts else Cut(facts[..|facts| - 1], j)
  }

  /** The connection, the threads' metadata and the pending request are there and the turn is new. */
  predicate Ready(s: State, j: Feed) {
    && j.key.connection in s.connections
    && j.threadId in j.known && j.config.threadId in j.known
    && (forall threadId <- j.known :: MetadataOf(s, threadId).Some?)
    && Lookup(s.requests, j.key) == Some(PendingTurnStart(j.threadId, j.images))
    && Turn(j) !in s.turns
  }

  /** The event of a feed without side facts: the thread and the image count are those of whichever of config
      and start came last. */
  function Expected(s: State, j: Feed, configLast: bool): TurnEventParams
    requires Ready(s, j)
  {
    var threadId := if configLast then j.config.threadId else j.threadId;
    TurnEventParams(Turn(j), threadId, s.connections[j.key.connection], MetadataOf(s, threadId).value,
                    if configLast then j.config.images else j.images, j.config.details, j.profile, CompletedOf(j.end),
                    None, None, None, 0, NoTools)
  }

  /** What the event of any feed carries: client, images, config, profile and end as without side facts, the
      thread named last with its metadata, and the side facts' latest values. */
  predicate Carries(s: State, j: Feed, e: TurnEventParams, configLast: bool, d: Details)
    requires Ready(s, j)
  {
    var fixed := Expected(s, j, configLast);
    && e.turnId == fixed.turnId && e.client == fixed.client && e.images == fixed.images
    && e.details == fixed.details && e.profile == fixed.profile && e.completed == fixed.completed
    && d.threadId == Some(e.threadId) && MetadataOf(s, e.threadId) == Some(e.thread)
    && e.startedAt == d.startedAt && e.tokenUsage == d.usage && e.codexError == d.error
  }

  function TurnEventsOf(out: seq<Event>, t: TurnId): seq<TurnEventParams> {
    if out == [] then []
    else
      var last := out[|out| - 1];
      TurnEventsOf(out[..|out| - 1], t) + if last.TurnEvent? && last.turn.turnId == t then [last.turn] else []
  }

  lemma {:induction false} TurnEventsOfAppend(a: seq<Event>, b: seq<Event>, t: TurnId)
    ensures TurnEventsOf(a + b, t) == TurnEventsOf(a, t) + TurnEventsOf(b, t)
    decreases |b|
  {
    if b == [] {
      assert a + b == a;
    } else {
      assert (a + b)[..|a + b| - 1] == a + b[..|b| - 1];
      TurnEventsOfAppend(a, b[..|b| - 1], t);
    }
  }

  lemma {:induction false} NoneOf(out: seq<Event>, t: TurnId)
    requires forall e <- out | e.TurnEvent? :: e.turn.turnId != t
    ensures TurnEventsOf(out, t) == []
    decreases |out|
  {
    if out != [] {
      NoneOf(out[..|out| - 1], t);
    }
  }

  // ---------------------------------------------------------------- the invariant of a feed

  /** The turn's state holds exactly the parts that are there and the details. */
  predicate Holds(turn: TurnState, j: Feed, p: Progress, d: Details) {
    && turn.connection == (if p.start then Some(j.key.connection) else None)
    && turn.images == (if p.start || p.config then Some(if p.configLast then j.config.images else j.images) else None)
    && turn.config == (if p.config then Some(j.config) else None)
    && turn.profile == (if p.profile then Some(j.profile) else None)
    && turn.completed == (if p.completion then Some(CompletedOf(j.end)) else None)
    && turn.threadId == d.threadId && turn.startedAt == d.startedAt
    && turn.tokenUsage == d.usage && turn.codexError == d.error
  }

  predicate Coherent(j: Feed, p: Progress, d: Details) {
    && (p.configLast ==> p.config) && (p.start && !p.config ==> !p.configLast)
    && (p.config && !p.start ==> p.configLast)
    && (p.start || p.config ==> d.threadId.Some?)
    && (d.threadId.Some? ==> d.threadId.value in j.known)
  }

  /** A turn that was emitted, and perhaps begun again by side facts: it cannot be emitted again. */
  predicate Spent(turn: TurnState) {
    turn.connection.None? && turn.config.None?
  }

  predicate Uncounted(turn: TurnState) {
    turn.steerCount == 0 && turn.toolCounts == NoTools
  }

  predicate SameContext(s: State, now: State, j: Feed) {
    && Lookup(now.connections, j.key.connection) == Lookup(s.connections, j.key.connection)
    && forall threadId <- j.known :: MetadataOf(now, threadId) == MetadataOf(s, threadId)
  }

  /** The turn's part of the state, while parts are missing and after. */
  predicate TurnFed(turn: TurnState, j: Feed, p: Progress, d: Details, plain: bool) {
    if Complete(p) then Spent(turn) else Holds(turn, j, p, d) && (plain ==> Uncounted(turn))
  }

  predicate Feeding(s: State, now: State, j: Feed, p: Progress, d: Details, plain: bool) {
    && SameContext(s, now, j)
    && (p.start || Lookup(now.requests, j.key) == Some(PendingTurnStart(j.threadId, j.images)))
    && Coherent(j, p, d)
    && TurnFed(TurnOf(now, Turn(j)), j, p, d, plain)
  }

  /** What a step emits for the turn: its event when the last part came just now, else nothing. */
  predicate Emits(s: State, out: seq<Event>, j: Feed, now: bool, configLast: bool, d: Details, plain: bool)
    requires Ready(s, j)
  {
    var events := TurnEventsOf(out, Turn(j));
    if now
    then && |events| == 1 && Carries(s, j, events[0], configLast, d)
         && (plain ==> events[0].steerCount == 0 && events[0].toolCounts == NoTools)
    else events == []
  }

  /** A step that keeps the context and the request and leaves the turn fed keeps the invariant. */
  lemma FeedingKept(s: State, now: State, after: State, j: Feed, p: Progress, d: Details, plain: bool, more: Details,
                    still: bool)
    requires Feeding(s, now, j, p, d, plain) && SameContext(now, after, j)
    requires Lookup(after.requests, j.key) == Lookup(now.requests, j.key)
    requires Coherent(j, p, more) && TurnFed(TurnOf(after, Turn(j)), j, p, more, still)
    ensures Feeding(s, after, j, p, more, still)
  {
  }

  lemma OneOf(e: TurnEventParams, more: seq<Event>)
    requires forall x <- more :: !x.TurnEvent?
    ensures TurnEventsOf([TurnEvent(e)] + more, e.turnId) == [e]
  {
    TurnEventsOfAppend([TurnEvent(e)], more, e.turnId);
    NoneOf(more, e.turnId);
    assert [TurnEvent(e)][..0] == [];
  }

  /** Putting a turn with some of the parts in place emits nothing while one is missing. */
  lemma PutIncomplete(now: State, j: Feed, turn: TurnState, p: Progress, d: Details)
    requires Holds(turn, j, p, d) && !Complete(p)
    ensures MaybeEmitTurn(PutTurn(now, Turn(j), turn), Turn(j)) == Quiet(PutTurn(now, Turn(j), turn))
  {
    assert !(HasAllParts(turn) && turn.connection.Some?);
  }

  /** Putting a turn with all the parts in place emits it and forgets it. */
  lemma PutComplete(s: State, now: State, j: Feed, turn: TurnState, p: Progress, d: Details)
    requires Ready(s, j) && SameContext(s, now, j) && Coherent(j, p, d) && Holds(turn, j, p, d) && Complete(p)
    ensures var e := MaybeEmitTurn(PutTurn(now, Turn(j), turn), Turn(j));
            && Turn(j) !in e.state.turns
            && |TurnEventsOf(e.out, Turn(j))| == 1
            && Carries(s, j, TurnEventsOf(e.out, Turn(j))[0], p.configLast, d)
            && TurnEventsOf(e.out, Turn(j))[0].steerCount == turn.steerCount
            && TurnEventsOf(e.out, Turn(j))[0].toolCounts == turn.toolCounts
  {
    var put := PutTurn(now, Turn(j), turn);
    assert MetadataOf(put, d.threadId.value) == MetadataOf(s, d.threadId.value);
    assert CanEmit(put, turn);
    OneOf(TurnParams(put, Turn(j), turn), AcceptedLines(Turn(j), turn));
  }

  /** The turn with one more part. */
  function WithPart(turn: TurnState, j: Feed, part: Part): TurnState {
    match part
    case StartPart =>
      turn.(connection := Some(j.key.connection), threadId := Some(j.threadId), images := Some(j.images))
    case ConfigPart =>
      turn.(threadId := Some(j.config.threadId), images := Some(j.config.images), config := Some(j.config))
    case ProfilePart => turn.(profile := Some(j.profile))
    case CompletionPart => turn.(completed := Some(CompletedOf(j.end)))
  }

  lemma PartHeld(turn: TurnState, j: Feed, p: Progress, d: Details, part: Part)
    requires Holds(turn, j, p, d) && Coherent(j, p, d) && !Got(p, part)
    requires j.threadId in j.known && j.config.threadId in j.known
    ensures var next, more := Advance(p, part), Detail(d, PartFact(j, part), j);
            Holds(WithPart(turn, j, part), j, next, more) && Coherent(j, next, more)
  {
  }

  lemma StartIngested(now: State, j: Feed)
    requires Lookup(now.requests, j.key) == Some(PendingTurnStart(j.threadId, j.images))
    ensures var base := TakeRequest(now, j.key);
            IngestTurnStart(now, j.key, Turn(j))
            == MaybeEmitTurn(PutTurn(base, Turn(j), WithPart(TurnOf(now, Turn(j)), j, StartPart)), Turn(j))
  {
  }

  function BaseOf(now: State, j: Feed, part: Part): State {
    if part.StartPart? then TakeRequest(now, j.key) else now
  }

  lemma PartIngested(now: State, j: Feed, part: Part)
    requires part == StartPart ==> Lookup(now.requests, j.key) == Some(PendingTurnStart(j.threadId, j.images))
    ensures Ingest(now, PartFact(j, part))
            == MaybeEmitTurn(PutTurn(BaseOf(now, j, part), Turn(j), WithPart(TurnOf(now, Turn(j)), j, part)), Turn(j))
  {
    if part == StartPart {
      StartIngested(now, j);
    }
  }

  /** The turn with some or all of the parts, put in place. */
  lemma PutFed(s: State, base: State, j: Feed, turn: TurnState, p: Progress, d: Details, plain: bool)
    requires Ready(s, j) && SameContext(s, base, j) && Coherent(j, p, d) && Holds(turn, j, p, d)
    requires p.start || Lookup(base.requests, j.key) == Some(PendingTurnStart(j.threadId, j.images))
    requires plain ==> Uncounted(turn)
    ensures var e := MaybeEmitTurn(PutTurn(base, Turn(j), turn), Turn(j));
            && Feeding(s, e.state, j, p, d, plain)
            && Emits(s, e.out, j, Complete(p), p.configLast, d, plain)
  {
    var put := PutTurn(base, Turn(j), turn);
    if Complete(p) {
      PutComplete(s, base, j, turn, p, d);
      assert Spent(NewTurn);
    } else {
      PutIncomplete(base, j, turn, p, d);
      NoneOf([], Turn(j));
      assert TurnOf(put, Turn(j)) == turn;
    }
  }

  lemma PartStep(s: State, now: State, j: Feed, p: Progress, d: Details, plain: bool, part: Part)
    requires Ready(s, j) && Feeding(s, now, j, p, d, plain) && !Got(p, part)
    ensures var e := Ingest(now, PartFact(j, part));
            var next, more := Advance(p, part), Detail(d, PartFact(j, part), j);
            && Feeding(s, e.state, j, next, more, plain)
            && Emits(s, e.out, j, Complete(next), next.configLast, more, plain)
  {
    var turn := TurnOf(now, Turn(j));
    PartIngested(now, j, part);
    PartHeld(turn, j, p, d, part);
    PutFed(s, BaseOf(now, j, part), j, WithPart(turn, j, part), Advance(p, part), Detail(d, PartFact(j, part), j),
           plain);
  }

  // ---------------------------------------------------------------- side facts

  lemma SideKeepsContext(now: State, f: Fact, j: Feed)
    requires Side(f, j)
    ensures SameContext(now, Ingest(now, f).state, j)
    ensures Lookup(Ingest(now, f).state.requests, j.key) == Lookup(now.requests, j.key)
  {
    ContextsUntouched(now, f);
    StepRequests(now, f);
    LookupAfter(now.requests, f, j.key);
  }

  /** A token count puts the turn in place; an incomplete or spent turn stays. */
  lemma UsageFed(now: State, j: Feed, threadId: ThreadId, usage: string, p: Progress, d: Details, plain: bool)
    requires TurnFed(TurnOf(now, Turn(j)), j, p, d, plain) && threadId in j.known
    ensures var e := IngestTokenUsage(now, Turn(j), threadId, usage);
            && e.out == []
            && TurnFed(TurnOf(e.state, Turn(j)), j, p, Detail(d, TurnTokenUsage(Turn(j), threadId, usage), j), false)
  {
    var after := TurnOf(now, Turn(j)).(threadId := Some(threadId), tokenUsage := Some(usage));
    var put := PutTurn(now, Turn(j), after);
    if Complete(p) {
      assert !CanEmit(put, after);
    } else {
      PutIncomplete(now, j, after, p, Detail(d, TurnTokenUsage(Turn(j), threadId, usage), j));
    }
    assert TurnOf(put, Turn(j)) == after;
  }

  lemma ItemFed(now: State, j: Feed, f: Fact, p: Progress, d: Details, plain: bool)
    requires f.ItemCompleted? && f.turnId == Turn(j) && TurnFed(TurnOf(now, Turn(j)), j, p, d, plain)
    ensures var e := IngestItemCompleted(now, f.threadId, f.turnId, f.item, f.completedAtMs);
            TurnFed(TurnOf(e.state, Turn(j)), j, p, d, false)
  {
  }

  lemma SteerFed(now: State, j: Feed, key: RequestKey, p: Progress, d: Details, plain: bool)
    requires TurnFed(TurnOf(now, Turn(j)), j, p, d, plain)
    ensures TurnFed(TurnOf(IngestSteerResponse(now, key, Turn(j)).state, Turn(j)), j, p, d, false)
  {
  }

  lemma SideFed(now: State, j: Feed, f: Fact, p: Progress, d: Details, plain: bool)
    requires Side(f, j) && TurnFed(TurnOf(now, Turn(j)), j, p, d, plain)
    ensures TurnFed(TurnOf(Ingest(now, f).state, Turn(j)), j, p, Detail(d, f, j), false)
    ensures forall x <- Ingest(now, f).out :: !x.TurnEvent?
  {
    if f.TurnTokenUsage? {
      UsageFed(now, j, f.threadId, f.usage, p, d, plain);
    } else {
      OtherFactsEmitNoTurn(now, f);
      if f.ItemCompleted? {
        ItemFed(now, j, f, p, d, plain);
      } else if f.ClientResponse? {
        SteerFed(now, j, f.key, p, d, plain);
      }
    }
  }

  lemma SideCoherent(f: Fact, j: Feed, p: Progress, d: Details)
    requires Side(f, j) && Coherent(j, p, d)
    ensures Coherent(j, p, Detail(d, f, j))
  {
  }

  lemma SideStep(s: State, now: State, j: Feed, p: Progress, d: Details, plain: bool, f: Fact)
    requires Ready(s, j) && Feeding(s, now, j, p, d, plain) && Side(f, j)
    ensures Feeding(s, Ingest(now, f).state, j, p, Detail(d, f, j), false)
    ensures TurnEventsOf(Ingest(now, f).out, Turn(j)) == []
  {
    var e := Ingest(now, f);
    SideKeepsContext(now, f, j);
    SideFed(now, j, f, p, d, plain);
    SideCoherent(f, j, p, d);
    FeedingKept(s, now, e.state, j, p, d, plain, Detail(d, f, j), false);
    NoneOf(e.out, Turn(j));
  }

  // ---------------------------------------------------------------- foreign facts

  lemma ForeignKeepsContext(now: State, f: Fact, j: Feed)
    requires Foreign(f, j) && forall threadId <- j.known :: MetadataOf(now, threadId).Some?
    ensures SameContext(now, Ingest(now, f).state, j)
  {
    if !f.Initialize? && !OpensThread(f) && !f.SubAgentThreadStarted? {
      ContextsUntouched(now, f);
    }
  }

  lemma ForeignKeepsRequest(now: State, f: Fact, j: Feed)
    requires Foreign(f, j)
    ensures Lookup(Ingest(now, f).state.requests, j.key) == Lookup(now.requests, j.key)
  {
    StepRequests(now, f);
    LookupAfter(now.requests, f, j.key);
  }

  lemma OtherTurnEmits(now: State, u: TurnId, turn: TurnState, t: TurnId)
    requires u != t
    ensures var e := MaybeEmitTurn(PutTurn(now, u, turn), u);
            && Lookup(e.state.turns, t) == Lookup(now.turns, t)
            && forall x <- e.out | x.TurnEvent? :: x.turn.turnId != t
  {
  }

  lemma OtherStart(now: State, key: RequestKey, u: TurnId, t: TurnId)
    requires u != t
    ensures var e := IngestTurnStart(now, key, u);
            && Lookup(e.state.turns, t) == Lookup(now.turns, t)
            && forall x <- e.out | x.TurnEvent? :: x.turn.turnId != t
  {
    if key in now.requests && now.requests[key].PendingTurnStart? {
      var s1 := TakeRequest(now, key);
      OtherTurnEmits(s1, u, TurnOf(s1, u).(connection := Some(key.connection),
                                           threadId := Some(now.requests[key].threadId),
                                           images := Some(now.requests[key].images)), t);
    }
  }

  lemma ForeignParts(now: State, f: Fact, j: Feed)
    requires Foreign(f, j) && CanEmitTurn(f)
    ensures Lookup(Ingest(now, f).state.turns, Turn(j)) == Lookup(now.turns, Turn(j))
    ensures forall x <- Ingest(now, f).out | x.TurnEvent? :: x.turn.turnId != Turn(j)
  {
    var t := Turn(j);
    if f.TurnResolvedConfig? {
      var turn := TurnOf(now, f.config.turnId);
      OtherTurnEmits(now, f.config.turnId, turn.(threadId := Some(f.config.threadId), images := Some(f.config.images),
                     config := Some(f.config)), t);
    } else if f.TurnTokenUsage? {
      OtherTurnEmits(now, f.turnId, TurnOf(now, f.turnId).(threadId := Some(f.threadId), tokenUsage := Some(f.usage)),
                     t);
    } else if f.TurnProfile? {
      OtherTurnEmits(now, f.turnId, TurnOf(now, f.turnId).(profile := Some(f.profile)), t);
    } else if f.TurnCompleted? {
      OtherTurnEmits(now, f.turnId, TurnOf(now, f.turnId).(completed := Some(CompletedOf(f.end))), t);
    } else {
      OtherStart(now, f.key, f.response.turnId, t);
    }
  }

  lemma OtherItem(now: State, threadId: ThreadId, u: TurnId, item: ThreadItem, at: int, t: TurnId)
    requires u != t
    ensures Lookup(IngestItemCompleted(now, threadId, u, item, at).state.turns, t) == Lookup(now.turns, t)
  {
  }

  lemma OtherSteer(now: State, key: RequestKey, u: TurnId, t: TurnId)
    requires u != t
    ensures Lookup(IngestSteerResponse(now, key, u).state.turns, t) == Lookup(now.turns, t)
  {
  }

  lemma ForeignEdits(now: State, f: Fact, j: Feed)
    requires Foreign(f, j) && !CanEmitTurn(f)
    ensures Lookup(Ingest(now, f).state.turns, Turn(j)) == Lookup(now.turns, Turn(j))
  {
    if !EditsTurn(f) {
      TurnsUntouched(now, f);
    } else if f.ItemCompleted? {
      OtherItem(now, f.threadId, f.turnId, f.item, f.completedAtMs, Turn(j));
    } else if f.ClientResponse? {
      OtherSteer(now, f.key, f.response.turnId, Turn(j));
    }
  }

  lemma ForeignStep(s: State, now: State, f: Fact, j: Feed, p: Progress, d: Details, plain: bool)
    requires Ready(s, j) && Feeding(s, now, j, p, d, plain) && Foreign(f, j)
    ensures Feeding(s, Ingest(now, f).state, j, p, d, plain)
    ensures TurnEventsOf(Ingest(now, f).out, Turn(j)) == []
  {
    var e := Ingest(now, f);
    ForeignKeepsContext(now, f, j);
    ForeignKeepsRequest(now, f, j);
    if CanEmitTurn(f) {
      ForeignParts(now, f, j);
    } else {
      ForeignEdits(now, f, j);
      OtherFactsEmitNoTurn(now, f);
    }
    NoneOf(e.out, Turn(j));
    assert TurnOf(e.state, Turn(j)) == TurnOf(now, Turn(j));
    FeedingKept(s, now, e.state, j, p, d, plain, d, plain);
  }

  // ---------------------------------------------------------------- the whole feed

  function NextProgress(p: Progress, f: Fact, j: Feed): Progress {
    if PartOf(f, j).None? then p else Advance(p, PartOf(f, j).value)
  }

  /** Other facts than parts leave the details of the turn to the side facts among them. */
  lemma ForeignHasNoDetail(f: Fact, j: Feed, d: Details)
    requires PartOf(f, j).None? && !Side(f, j)
    ensures Detail(d, f, j) == d
  {
  }

  /** What a step leaves and emits, with `p` and `next` the progress before and after it. */
  predicate Joins(s: State, e: Effect, j: Feed, p: Progress, next: Progress, d: Details, plain: bool, still: bool)
    requires Ready(s, j)
  {
    && Feeding(s, e.state, j, next, d, still)
    && Emits(s, e.out, j, Complete(next) && !Complete(p), next.configLast, d, plain)
  }

  lemma PartJoins(s: State, now: State, f: Fact, j: Feed, p: Progress, d: Details, plain: bool, part: Part)
    requires Ready(s, j) && Feeding(s, now, j, p, d, plain) && !Got(p, part) && f == PartFact(j, part)
    ensures Joins(s, Ingest(now, f), j, p, Advance(p, part), Detail(d, f, j), plain, plain)
  {
    PartStep(s, now, j, p, d, plain, part);
  }

  lemma OtherJoins(s: State, now: State, f: Fact, j: Feed, p: Progress, d: Details, plain: bool)
    requires Ready(s, j) && Feeding(s, now, j, p, d, plain) && PartOf(f, j).None? && (Foreign(f, j) || Side(f, j))
    ensures Joins(s, Ingest(now, f), j, p, p, Detail(d, f, j), plain, plain && !Side(f, j))
  {
    if Side(f, j) {
      SideStep(s, now, j, p, d, plain, f);
    } else {
      ForeignHasNoDetail(f, j, d);
      ForeignStep(s, now, f, j, p, d, plain);
    }
  }

  lemma PartOfFact(f: Fact, j: Feed)
    ensures PartOf(f, j).Some? ==> f == PartFact(j, PartOf(f, j).value) && !Side(f, j)
  {
  }

  lemma PartOfPart(j: Feed, part: Part)
    ensures PartOf(PartFact(j, part), j) == Some(part) && !Side(PartFact(j, part), j)
  {
  }

  lemma JoinStep(s: State, now: State, f: Fact, j: Feed, p: Progress, d: Details, plain: bool)
    requires Ready(s, j) && Feeding(s, now, j, p, d, plain) && MayFeed(f, j, p)
    ensures Joins(s, Ingest(now, f), j, p, NextProgress(p, f, j), Detail(d, f, j), plain, plain && !Side(f, j))
  {
    PartOfFact(f, j);
    if PartOf(f, j).Some? {
      PartJoins(s, now, f, j, p, d, plain, PartOf(f, j).value);
    } else {
      OtherJoins(s, now, f, j, p, d, plain);
    }
  }

  /** The events of the turn that a feed has emitted. */
  ghost predicate EmittedOnce(s: State, facts: seq<Fact>, j: Feed, events: seq<TurnEventParams>)
    requires Ready(s, j)
  {
    var p := ProgressOf(facts, j);
    if !Complete(p) then events == []
    else && |events| == 1 && Carries(s, j, events[0], p.configLast, DetailsOf(Cut(facts, j), j))
         && (Plain(facts, j) ==> events[0] == Expected(s, j, p.configLast))
  }

  /** Without side facts the details say only which of config and start came last. */
  lemma {:induction false} PlainDetails(facts: seq<Fact>, j: Feed)
    requires Feeds(facts, j) && Plain(facts, j)
    ensures var p := ProgressOf(facts, j);
            && (p.configLast ==> p.config)
            && DetailsOf(facts, j)
               == NoDetails.(threadId := if p.configLast then Some(j.config.threadId)
                                         else if p.start then Some(j.threadId) else None)
    decreases |facts|
  {
    if facts != [] {
      var front, f := facts[..|facts| - 1], facts[|facts| - 1];
      PlainDetails(front, j);
      assert !Side(f, j);
    }
  }

  lemma PlainEvent(s: State, j: Feed, e: TurnEventParams, configLast: bool)
    requires Ready(s, j) && e.steerCount == 0 && e.toolCounts == NoTools
    requires Carries(s, j, e, configLast,
                     NoDetails.(threadId := Some(if configLast then j.config.threadId else j.threadId)))
    ensures e == Expected(s, j, configLast)
  {
  }

  lemma EmittedByStep(s: State, front: seq<Fact>, f: Fact, j: Feed, before: seq<TurnEventParams>,
                      added: seq<TurnEventParams>)
    requires Ready(s, j) && Feeds(front + [f], j) && EmittedOnce(s, front, j, before)
    requires var p := ProgressOf(front, j);
             var next := NextProgress(p, f, j);
             if Complete(next) && !Complete(p)
             then && |added| == 1 && Carries(s, j, added[0], next.configLast, Detail(DetailsOf(front, j), f, j))
                  && (Plain(front, j) ==> added[0].steerCount == 0 && added[0].toolCounts == NoTools)
             else added == []
    ensures EmittedOnce(s, front + [f], j, before + added)
  {
    var facts := front + [f];
    assert facts[..|facts| - 1] == front && facts[|facts| - 1] == f;
    var p, next := ProgressOf(front, j), ProgressOf(facts, j);
    assert Plain(facts, j) ==> Plain(front, j);
    if Complete(next) && !Complete(p) {
      assert before + added == added;
      if Plain(facts, j) {
        PlainDetails(facts, j);
        PlainEvent(s, j, added[0], next.configLast);
      }
    } else {
      assert before + added == before;
    }
  }

  /** However the four facts are ordered, and whatever foreign facts and side facts of the turn come between and
      after them, the turn's event is emitted exactly once, by the last of the four. Its client, images, config,
      profile and end do not depend on the side facts; its thread is the one named last before the emission. */
  lemma {:induction false} FedTurnEmitsOnce(s: State, facts: seq<Fact>, j: Feed)
    requires Ready(s, j) && Feeds(facts, j)
    ensures Feeding(s, Replay(s, facts).state, j, ProgressOf(facts, j), DetailsOf(facts, j), Plain(facts, j))
    ensures EmittedOnce(s, facts, j, TurnEventsOf(Replay(s, facts).out, Turn(j)))
    decreases |facts|
  {
    if facts != [] {
      var front, f := facts[..|facts| - 1], facts[|facts| - 1];
      assert facts == front + [f];
      FedTurnEmitsOnce(s, front, j);
      var before := Replay(s, front);
      JoinStep(s, before.state, f, j, ProgressOf(front, j), DetailsOf(front, j), Plain(front, j));
      var more := Ingest(before.state, f).out;
      TurnEventsOfAppend(before.out, more, Turn(j));
      EmittedByStep(s, front, f, j, TurnEventsOf(before.out, Turn(j)), TurnEventsOf(more, Turn(j)));
      PlainSnoc(front, f, j);
    }
  }

  lemma PlainSnoc(front: seq<Fact>, f: Fact, j: Feed)
    ensures Plain(front + [f], j) <==> Plain(front, j) && !Side(f, j)
  {
    if Plain(front + [f], j) {
      assert f in front + [f];
      assert forall x <- front :: x in front + [f];
    }
  }

  // ---------------------------------------------------------------- when the order does not matter

  /** A complete feed without side facts. */
  predicate Delivers(facts: seq<Fact>, j: Feed) {
    Feeds(facts, j) && Plain(facts, j) && Complete(ProgressOf(facts, j))
  }

  /** Every order of such a feed, with any foreign facts, emits the same event. */
  ghost predicate OrderIrrelevant(s: State, j: Feed) {
    forall a, b | Delivers(a, j) && Delivers(b, j) ::
      TurnEventsOf(Replay(s, a).out, Turn(j)) == TurnEventsOf(Replay(s, b).out, Turn(j))
  }

  lemma DeliveredEvent(s: State, facts: seq<Fact>, j: Feed)
    requires Ready(s, j) && Delivers(facts, j)
    ensures TurnEventsOf(Replay(s, facts).out, Turn(j)) == [Expected(s, j, ProgressOf(facts, j).configLast)]
  {
    FedTurnEmitsOnce(s, facts, j);
  }

  lemma FeedOne(facts: seq<Fact>, j: Feed, part: Part)
    requires Feeds(facts, j) && Plain(facts, j) && !Got(ProgressOf(facts, j), part)
    ensures var more := facts + [PartFact(j, part)];
            Feeds(more, j) && Plain(more, j) && ProgressOf(more, j) == Advance(ProgressOf(facts, j), part)
  {
    assert (facts + [PartFact(j, part)])[..|facts|] == facts;
    PartOfPart(j, part);
    PlainSnoc(facts, PartFact(j, part), j);
  }

  lemma FeedRest(facts: seq<Fact>, j: Feed) returns (all: seq<Fact>)
    requires Feeds(facts, j) && Plain(facts, j) && ProgressOf(facts, j).start && ProgressOf(facts, j).config
    requires !ProgressOf(facts, j).profile && !ProgressOf(facts, j).completion
    ensures Delivers(all, j) && ProgressOf(all, j).configLast == ProgressOf(facts, j).configLast
  {
    FeedOne(facts, j, ProfilePart);
    all := facts + [PartFact(j, ProfilePart)];
    FeedOne(all, j, CompletionPart);
    all := all + [PartFact(j, CompletionPart)];
  }

  lemma FeedInOrder(j: Feed, first: Part, second: Part) returns (all: seq<Fact>)
    requires (first == StartPart && second == ConfigPart) || (first == ConfigPart && second == StartPart)
    ensures Delivers(all, j) && ProgressOf(all, j).configLast == (second == ConfigPart)
  {
    FeedOne([], j, first);
    all := [] + [PartFact(j, first)];
    FeedOne(all, j, second);
    all := FeedRest(all + [PartFact(j, second)], j);
  }

  /** The order does not show in the event exactly when request and config agree on the thread and on the
      number of images. */
  lemma OrderIrrelevantIff(s: State, j: Feed)
    requires Ready(s, j)
    ensures OrderIrrelevant(s, j) <==> j.threadId == j.config.threadId && j.images == j.config.images
  {
    if j.threadId == j.config.threadId && j.images == j.config.images {
      forall a, b | Delivers(a, j) && Delivers(b, j)
        ensures TurnEventsOf(Replay(s, a).out, Turn(j)) == TurnEventsOf(Replay(s, b).out, Turn(j))
      {
        DeliveredEvent(s, a, j);
        DeliveredEvent(s, b, j);
      }
    } else {
      var a := FeedInOrder(j, StartPart, ConfigPart);
      var b := FeedInOrder(j, ConfigPart, StartPart);
      DeliveredEvent(s, a, j);
      DeliveredEvent(s, b, j);
      assert Expected(s, j, true) != Expected(s, j, false);
    }
  }
}
