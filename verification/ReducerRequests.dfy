/** Stored client requests and approval requests: each is consumed at most once. */
module ReducerRequests {
  import opened Options
  import opened AnalyticsTypes
  import opened Reducer
  import opened ReducerTurns

  // ---------------------------------------------------------------- what is stored under a key

  predicate Stores(f: Fact, key: RequestKey) {
    f.ClientRequest? && f.key == key && !f.request.OtherClientRequest?
  }

  /** An answer to a turn start, an answer to a steer, or an error. */
  predicate Answers(f: Fact, key: RequestKey) {
    || (f.ClientResponse? && f.key == key && (f.response.TurnStartResponse? || f.response.TurnSteerResponse?))
    || (f.ErrorResponse? && f.key == key)
  }

  function StoredBy(request: ClientRequestBody): RequestState
    requires !request.OtherClientRequest?
  {
    match request
    case TurnStartRequest(threadId, images) => PendingTurnStart(threadId, images)
    case TurnSteerRequest(threadId, expected, images, createdAt) =>
        PendingTurnSteer(threadId, expected, images, createdAt)
  }

  /** The last request under the key that nothing has answered since. */
  function OpenRequest(facts: seq<Fact>, key: RequestKey): Option<RequestState> {
    if facts == [] then None
    else
      var f := facts[|facts| - 1];
      if Stores(f, key) then Some(StoredBy(f.request))
      else if Answers(f, key) then None
      else OpenRequest(facts[..|facts| - 1], key)
  }

  predicate ConcernsRequests(f: Fact) {
    f.ClientRequest? || f.ClientResponse? || f.ErrorResponse?
  }

  function RequestsAfter(requests: map<RequestKey, RequestState>, f: Fact): map<RequestKey, RequestState> {
    if !ConcernsRequests(f) then requests
    else if Stores(f, f.key) then requests[f.key := StoredBy(f.request)]
    else if Answers(f, f.key) then requests - {f.key}
    else requests
  }

  lemma RequestsUntouched(s: State, f: Fact)
    requires !ConcernsRequests(f)
    ensures Ingest(s, f).state.requests == s.requests
  {
  }

  lemma ResponseRequests(s: State, key: RequestKey, response: ClientResponseBody)
    ensures IngestResponse(s, key, response).state.requests == RequestsAfter(s.requests, ClientResponse(key, response))
  {
  }

  lemma StepRequests(s: State, f: Fact)
    ensures Ingest(s, f).state.requests == RequestsAfter(s.requests, f)
  {
    if !ConcernsRequests(f) {
      RequestsUntouched(s, f);
    } else if f.ClientResponse? {
      ResponseRequests(s, f.key, f.response);
    }
  }

  lemma LookupAfter(requests: map<RequestKey, RequestState>, f: Fact, key: RequestKey)
    ensures Lookup(RequestsAfter(requests, f), key)
            == if Stores(f, key) then Some(StoredBy(f.request))
               else if Answers(f, key) then None
               else Lookup(requests, key)
  {
  }

  /** The reducer stores under each key exactly the last unanswered request. */
  lemma {:induction false} RequestsAreOpen(facts: seq<Fact>, key: RequestKey)
    ensures Lookup(After(facts).requests, key) == OpenRequest(facts, key)
    decreases |facts|
  {
    if facts != [] {
      var front, f := facts[..|facts| - 1], facts[|facts| - 1];
      RequestsAreOpen(front, key);
      StepRequests(After(front), f);
      LookupAfter(After(front).requests, f, key);
    }
  }

  // ---------------------------------------------------------------- steer events

  function SteerEvents(out: seq<Event>): nat {
    if out == [] then 0 else SteerEvents(out[..|out| - 1]) + One(out[|out| - 1].TurnSteerEvent?)
  }

  predicate IsSteer(request: Option<RequestState>) {
    request.Some? && request.value.PendingTurnSteer?
  }

  lemma {:induction false} NoSteerEvents(out: seq<Event>)
    requires forall e <- out :: !e.TurnSteerEvent?
    ensures SteerEvents(out) == 0
    decreases |out|
  {
    if out != [] {
      NoSteerEvents(out[..|out| - 1]);
    }
  }

  predicate MaySteer(f: Fact) {
    (f.ClientResponse? && f.response.TurnSteerResponse?) || f.ErrorResponse?
  }

  lemma OnlyAnswersSteer(s: State, f: Fact)
    requires !MaySteer(f)
    ensures forall e <- Ingest(s, f).out :: !e.TurnSteerEvent?
  {
  }

  /** A steer event comes from an answer and carries the stored request that the answer consumes. */
  lemma AnswerSteers(s: State, f: Fact)
    requires MaySteer(f)
    ensures var out := Ingest(s, f).out;
            && Answers(f, f.key)
            && (out == [] || (&& |out| == 1 && out[0].TurnSteerEvent? && IsSteer(Lookup(s.requests, f.key))
                              && out[0].steer.request == s.requests[f.key]))
  {
  }

  lemma StepSteers(s: State, f: Fact)
    ensures SteerEvents(Ingest(s, f).out) <= One(MaySteer(f) && IsSteer(Lookup(s.requests, f.key)))
  {
    var out := Ingest(s, f).out;
    if MaySteer(f) {
      AnswerSteers(s, f);
      assert out != [] ==> out[..0] == [];
    } else {
      OnlyAnswersSteer(s, f);
      NoSteerEvents(out);
    }
  }

  /** Steer events emitted by the answers under one key. */
  function SteerEmissions(facts: seq<Fact>, key: RequestKey): nat {
    if facts == [] then 0
    else
      var front, f := facts[..|facts| - 1], facts[|facts| - 1];
      SteerEmissions(front, key) + if Answers(f, key) then SteerEvents(Ingest(After(front), f).out) else 0
  }

  predicate RequestsSteer(f: Fact, key: RequestKey) {
    f.ClientRequest? && f.key == key && f.request.TurnSteerRequest?
  }

  function SteerRequests(facts: seq<Fact>, key: RequestKey): nat {
    if facts == [] then 0 else SteerRequests(facts[..|facts| - 1], key) + One(RequestsSteer(facts[|facts| - 1], key))
  }

  /** Under every key, the steer events emitted, plus one when a steer is still stored, never outnumber the
      steer requests. */
  lemma {:induction false} SteersWithinRequests(facts: seq<Fact>, key: RequestKey)
    ensures SteerEmissions(facts, key) + One(IsSteer(OpenRequest(facts, key))) <= SteerRequests(facts, key)
    decreases |facts|
  {
    if facts != [] {
      var front, f := facts[..|facts| - 1], facts[|facts| - 1];
      SteersWithinRequests(front, key);
      if Answers(f, key) {
        StepSteers(After(front), f);
        RequestsAreOpen(front, key);
      }
    }
  }

  /** Every steer event of a run comes from an answer and carries the open request of the key it names. */
  lemma SteerCarriesRequest(facts: seq<Fact>, f: Fact, e: Event)
    requires e in Ingest(After(facts), f).out && e.TurnSteerEvent?
    ensures MaySteer(f) && Answers(f, f.key) && OpenRequest(facts, f.key) == Some(e.steer.request)
  {
    if !MaySteer(f) {
      OnlyAnswersSteer(After(facts), f);
    } else {
      AnswerSteers(After(facts), f);
      RequestsAreOpen(facts, f.key);
    }
  }

  /** No request is stored under the key by these facts. */
  predicate NoneStored(facts: seq<Fact>, key: RequestKey) {
    forall f <- facts :: !Stores(f, key)
  }

  lemma {:induction false} StaysAnswered(facts: seq<Fact>, more: seq<Fact>, key: RequestKey)
    requires OpenRequest(facts, key).None? && NoneStored(more, key)
    ensures OpenRequest(facts + more, key).None?
    decreases |more|
  {
    if more == [] {
      assert facts + more == facts;
    } else {
      var front := more[..|more| - 1];
      StaysAnswered(facts, front, key);
      assert (facts + more)[..|facts + more| - 1] == facts + front;
    }
  }

  lemma UnmatchedAnswer(s: State, late: Fact, key: RequestKey)
    requires Answers(late, key) && key !in s.requests
    ensures Ingest(s, late) == Quiet(s)
  {
    assert s.requests - {key} == s.requests;
    assert TakeRequest(s, key) == s;
  }

  /** Once a request was answered or failed, a late answer under its key changes and emits nothing until
      another request is stored there. */
  lemma LateAnswerIsIgnored(facts: seq<Fact>, answer: Fact, more: seq<Fact>, late: Fact, key: RequestKey)
    requires Answers(answer, key) && NoneStored(more, key) && Answers(late, key)
    ensures Ingest(After(facts + [answer] + more), late) == Quiet(After(facts + [answer] + more))
  {
    var answered := facts + [answer];
    assert answered[..|facts|] == facts;
    StaysAnswered(answered, more, key);
    RequestsAreOpen(answered + more, key);
    UnmatchedAnswer(After(answered + more), late, key);
  }
}
