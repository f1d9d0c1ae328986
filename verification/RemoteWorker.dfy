/** The remote app-server client: the initialize handshake, the worker that multiplexes commands and
    JSON-RPC frames over one connection, and the event stream the caller reads.

    A run of the worker is a sequence of inputs: commands, frames, and the moment the caller drops its
    event receiver. Whether a write succeeds is part of the input that causes it. */
module RemoteWorker {
  import opened Options

  type RequestId = string

  /** The one-shot reply channel a command carries; no two commands share one. */
  type Waiter = nat

  datatype RpcError = RpcError(code: int, message: string)

  datatype ServerEvent = ServerNotification(payload: string) | ServerRequest(id: RequestId, payload: string)

  datatype AppServerEvent = FromServer(event: ServerEvent) | Disconnected(message: string)

  /** A decoded JSON-RPC message; `event` is missing when the notification or the request is not one the
      client knows. */
  datatype Message =
    | Response(id: RequestId, result: string)
    | ErrorReply(id: RequestId, error: RpcError)
    | Notification(event: Option<ServerEvent>)
    | Request(id: RequestId, method_: string, event: Option<ServerEvent>)

  /** What the stream yields: text (undecodable text has no message), a close frame, a frame that is
      ignored, a transport error, or the end. */
  datatype Frame = Text(message: Option<Message>) | Close(reason: string) | Ignored | Failed(error: string) | End

  datatype Command =
    | SendRequest(id: RequestId, payload: string)
    | Notify(payload: string)
    | Resolve(id: RequestId, result: string)
    | Reject(id: RequestId, error: RpcError)
    | Shutdown

  datatype Input =
    | FromCaller(command: Command, waiter: Waiter, ok: bool)
    | CallersGone
    | FromStream(frame: Frame, ok: bool)
    | ReceiverDropped

  datatype ErrorKind = BrokenPipe | InvalidData | ConnectionAborted | UnexpectedEof

  /** What a waiter is told. */
  datatype Outcome =
    | Result(result: string)
    | ServerError(error: RpcError)
    | DuplicateId
    | WriteFailed
    | WorkerExited(kind: ErrorKind)
    | Done(ok: bool)

  const METHOD_NOT_FOUND := -32601

  datatype Outgoing =
    | RequestOut(id: RequestId, payload: string)
    | NotificationOut(payload: string)
    | ResponseOut(id: RequestId, result: string)
    | ErrorOut(id: RequestId, error: RpcError)
    | UnsupportedOut(id: RequestId, error: RpcError)

  /** The reply to a server request the client does not know. */
  function Unsupported(id: RequestId, method_: string): (r: Outgoing)
    ensures r.UnsupportedOut? && r.id == id && r.error.code == -32601
  {
    UnsupportedOut(id, RpcError(METHOD_NOT_FOUND, "unsupported remote app-server request `" + method_ + "`"))
  }

  /** `answers` holds what each waiter has been told, `events` what was delivered to the caller's event
      channel and `written` every attempted write. */
  datatype Worker = Worker(
    pending: map<RequestId, Waiter>,
    running: bool,
    receiverOpen: bool,
    answers: map<Waiter, seq<Outcome>>,
    events: seq<AppServerEvent>,
    written: seq<Outgoing>)

  const NothingPending: map<RequestId, Waiter> := map[]

  const Idle := Worker(map[], true, true, map[], [], [])

  function Told(answers: map<Waiter, seq<Outcome>>, w: Waiter): seq<Outcome> {
    if w in answers then answers[w] else []
  }

  function Tell(answers: map<Waiter, seq<Outcome>>, w: Waiter, o: Outcome): map<Waiter, seq<Outcome>> {
    answers[w := Told(answers, w) + [o]]
  }

  function Deliver(s: Worker, e: AppServerEvent): Worker {
    if s.receiverOpen then s.(events := s.events + [e]) else s
  }

  function Write(s: Worker, out: Outgoing): Worker {
    s.(written := s.written + [out])
  }

  /** The drain after the loop: every request still pending is told why the worker stopped. */
  function Drained(answers: map<Waiter, seq<Outcome>>, pending: map<RequestId, Waiter>, kind: ErrorKind)
    : map<Waiter, seq<Outcome>>
  {
    map w | w in answers.Keys + pending.Values ::
      if w in pending.Values then Told(answers, w) + [WorkerExited(kind)] else Told(answers, w)
  }

  function Exit(s: Worker, kind: ErrorKind): Worker {
    s.(running := false, pending := map[], answers := Drained(s.answers, s.pending, kind))
  }

  function Disconnect(s: Worker, kind: ErrorKind, message: string): Worker {
    Exit(Deliver(s, Disconnected(message)), kind)
  }

  function StepCommand(s: Worker, command: Command, waiter: Waiter, ok: bool): Worker {
    match command
    case SendRequest(id, payload) =>
      if id in s.pending then s.(answers := Tell(s.answers, waiter, DuplicateId))
      else
        var sent := Write(s, RequestOut(id, payload));
        if ok then sent.(pending := s.pending[id := waiter])
        else Disconnect(sent.(answers := Tell(s.answers, waiter, WriteFailed)), BrokenPipe, "write failed")
    case Notify(payload) => Write(s, NotificationOut(payload)).(answers := Tell(s.answers, waiter, Done(ok)))
    case Resolve(id, result) => Write(s, ResponseOut(id, result)).(answers := Tell(s.answers, waiter, Done(ok)))
    case Reject(id, error) => Write(s, ErrorOut(id, error)).(answers := Tell(s.answers, waiter, Done(ok)))
    case Shutdown => Exit(s.(answers := Tell(s.answers, waiter, Done(ok))), BrokenPipe)
  }

  function Answer(s: Worker, id: RequestId, o: Outcome): Worker {
    if id in s.pending then s.(pending := s.pending - {id}, answers := Tell(s.answers, s.pending[id], o)) else s
  }

  /** A delivery to a dropped receiver ends the worker without a disconnect event. */
  function StepEvent(s: Worker, e: ServerEvent): Worker {
    if s.receiverOpen then Deliver(s, FromServer(e)) else Exit(s, BrokenPipe)
  }

  function StepMessage(s: Worker, m: Message, ok: bool): Worker {
    match m
    case Response(id, result) => Answer(s, id, Result(result))
    case ErrorReply(id, error) => Answer(s, id, ServerError(error))
    case Notification(event) => if event.None? then s else StepEvent(s, event.value)
    case Request(id, method_, event) =>
      if event.Some? then StepEvent(s, event.value)
      else
        var replied := Write(s, Unsupported(id, method_));
        if ok then replied else Disconnect(replied, BrokenPipe, "write failed")
  }

  function StepFrame(s: Worker, f: Frame, ok: bool): Worker {
    match f
    case Text(message) =>
      if message.None? then Disconnect(s, InvalidData, "sent invalid JSON-RPC") else StepMessage(s, message.value, ok)
    case Close(reason) =>
      Disconnect(s, ConnectionAborted, "disconnected: " + if reason == "" then "connection closed" else reason)
    case Ignored => s
    case Failed(error) => Disconnect(s, InvalidData, "transport failed: " + error)
    case End => Disconnect(s, UnexpectedEof, "closed the connection")
  }

  /** One pass of the worker's loop; a worker that has left it does nothing. */
  function Step(s: Worker, input: Input): Worker {
    if !s.running then s
    else match input
      case FromCaller(command, waiter, ok) => StepCommand(s, command, waiter, ok)
      case CallersGone => Exit(s, BrokenPipe)
      case FromStream(frame, ok) => StepFrame(s, frame, ok)
      case ReceiverDropped => s.(receiverOpen := false)
  }

  function Run(s: Worker, inputs: seq<Input>): Worker
    decreases |inputs|
  {
    if inputs == [] then s else Run(Step(s, inputs[0]), inputs[1..])
  }

  // ---------------------------------------------------------------- the worker as an object

  /** The worker task's state, updated in place. */
  class RemoteWorkerTask {
    var pending: map<RequestId, Waiter>
    var running: bool
    var receiverOpen: bool
    var answers: map<Waiter, seq<Outcome>>
    var events: seq<AppServerEvent>
    var written: seq<Outgoing>

    function View(): Worker
      reads this
    {
      Worker(pending, running, receiverOpen, answers, events, written)
    }

    constructor ()
      ensures View() == Idle
    {
      pending, running, receiverOpen, answers, events, written := map[], true, true, map[], [], [];
    }

    method DeliverEvent(e: AppServerEvent) returns (delivered: bool)
      modifies this`events
      ensures View() == Deliver(old(View()), e) && delivered == receiverOpen
    {
      if receiverOpen {
        events := events + [e];
      }
      return receiverOpen;
    }

    /** The end of the task: the requests still pending are told. */
    method LeaveLoop(kind: ErrorKind)
      requires Injective(pending)
      modifies this`pending, this`answers, this`running
      ensures View() == Exit(old(View()), kind)
    {
      answers := DrainLoop(answers, pending, kind);
      pending, running := map[], false;
    }

    /** A broken connection: the caller is told by an event, the pending requests by the drain. */
    method LoseConnection(kind: ErrorKind, message: string)
      requires Injective(pending)
      modifies this
      ensures View() == Disconnect(old(View()), kind, message)
    {
      var _ := DeliverEvent(Disconnected(message));
      LeaveLoop(kind);
    }

    method HandleCommand(command: Command, waiter: Waiter, ok: bool)
      requires Injective(pending) && running
      modifies this
      ensures View() == StepCommand(old(View()), command, waiter, ok)
    {
      match command {
        case SendRequest(id, payload) =>
          if id in pending {
            answers := Tell(answers, waiter, DuplicateId);
            return;
          }
          ghost var before := pending;
          pending := pending[id := waiter];
          written := written + [RequestOut(id, payload)];
          if !ok {
            assert pending - {id} == before;
            pending := pending - {id};
            answers := Tell(answers, waiter, WriteFailed);
            LoseConnection(BrokenPipe, "write failed");
          }
        case Notify(payload) =>
          written := written + [NotificationOut(payload)];
          answers := Tell(answers, waiter, Done(ok));
        case Resolve(id, result) =>
          written := written + [ResponseOut(id, result)];
          answers := Tell(answers, waiter, Done(ok));
        case Reject(id, error) =>
          written := written + [ErrorOut(id, error)];
          answers := Tell(answers, waiter, Done(ok));
        case Shutdown =>
          answers := Tell(answers, waiter, Done(ok));
          LeaveLoop(BrokenPipe);
      }
    }

    method HandleEvent(e: ServerEvent)
      requires Injective(pending) && running
      modifies this
      ensures View() == StepEvent(old(View()), e)
    {
      var delivered := DeliverEvent(FromServer(e));
      if !delivered {
        LeaveLoop(BrokenPipe);
      }
    }

    method HandleMessage(m: Message, ok: bool)
      requires Injective(pending) && running
      modifies this
      ensures View() == StepMessage(old(View()), m, ok)
    {
      match m {
        case Response(id, result) =>
          if id in pending {
            answers := Tell(answers, pending[id], Result(result));
            pending := pending - {id};
          }
        case ErrorReply(id, error) =>
          if id in pending {
            answers := Tell(answers, pending[id], ServerError(error));
            pending := pending - {id};
          }
        case Notification(event) =>
          if event.Some? {
            HandleEvent(event.value);
          }
        case Request(id, method_, event) =>
          if event.Some? {
            HandleEvent(event.value);
          } else {
            written := written + [Unsupported(id, method_)];
            if !ok {
              LoseConnection(BrokenPipe, "write failed");
            }
          }
      }
    }

    /** One pass of the select loop. */
    method Handle(input: Input)
      requires Injective(pending)
      modifies this
      ensures View() == Step(old(View()), input)
    {
      if !running {
        return;
      }
      match input {
        case FromCaller(command, waiter, ok) => HandleCommand(command, waiter, ok);
        case CallersGone => LeaveLoop(BrokenPipe);
        case ReceiverDropped => receiverOpen := false;
        case FromStream(frame, ok) =>
          match frame {
            case Text(message) =>
              if message.None? {
                LoseConnection(InvalidData, "sent invalid JSON-RPC");
              } else {
                HandleMessage(message.value, ok);
              }
            case Close(reason) =>
              LoseConnection(ConnectionAborted,
                             "disconnected: " + if reason == "" then "connection closed" else reason);
            case Ignored =>
            case Failed(error) => LoseConnection(InvalidData, "transport failed: " + error);
            case End => LoseConnection(UnexpectedEof, "closed the connection");
          }
      }
    }

    /** The worker task: passes of the loop until it is left, on inputs whose reply channels are distinct. */
    method Work(inputs: seq<Input>)
      requires View() == Idle && DistinctWaiters(inputs)
      modifies this
      ensures View() == Run(Idle, inputs)
    {
      ghost var used: set<Waiter> := {};
      assert NothingPending.Values == {};
      var i := 0;
      while i < |inputs| && running
        invariant 0 <= i <= |inputs|
        invariant AnswersInvariant(View(), used) && NewWaiters(inputs[i..], used)
        invariant Run(View(), inputs[i..]) == Run(Idle, inputs)
      {
        var input := inputs[i];
        assert inputs[i..][0] == input && inputs[i..][1..] == inputs[i + 1..];
        StepKeepsAnswers(View(), used, input);
        LaterWaitersAreNew(inputs, i, used);
        used := used + if input.FromCaller? then {input.waiter} else {};
        Handle(input);
        i := i + 1;
      }
      StoppedStays(View(), inputs[i..]);
    }
  }

  predicate Injective(m: map<RequestId, Waiter>) {
    forall a, b | a in m && b in m && a != b :: m[a] != m[b]
  }

  /** How far the drain has come: which requests are done, which are left, and what has been said. */
  ghost predicate DrainedSoFar(before: map<Waiter, seq<Outcome>>, all: map<RequestId, Waiter>,
                               done: map<RequestId, Waiter>, left: map<RequestId, Waiter>,
                               told: map<Waiter, seq<Outcome>>, kind: ErrorKind)
  {
    && Injective(left) && done.Keys !! left.Keys && done.Values !! left.Values && done + left == all
    && told == Drained(before, done, kind)
  }

  lemma DrainStart(before: map<Waiter, seq<Outcome>>, all: map<RequestId, Waiter>, kind: ErrorKind)
    requires Injective(all)
    ensures DrainedSoFar(before, all, NothingPending, all, before, kind)
  {
    assert NothingPending.Values == {};
    assert NothingPending + all == all;
  }

  /** Telling one more waiter moves its request from the left-over part to the done part. */
  lemma DrainOne(before: map<Waiter, seq<Outcome>>, all: map<RequestId, Waiter>, done: map<RequestId, Waiter>,
                 left: map<RequestId, Waiter>, told: map<Waiter, seq<Outcome>>, kind: ErrorKind, id: RequestId)
    requires DrainedSoFar(before, all, done, left, told, kind) && id in left
    ensures DrainedSoFar(before, all, done[id := left[id]], left - {id}, Tell(told, left[id], WorkerExited(kind)), kind)
  {
    ValuesOfRemoval(left, id);
    assert left[id] in left.Values;
    ValuesOfUpdate(done, id, left[id]);
  }

  lemma DrainEnd(before: map<Waiter, seq<Outcome>>, all: map<RequestId, Waiter>, done: map<RequestId, Waiter>,
                 told: map<Waiter, seq<Outcome>>, kind: ErrorKind)
    requires DrainedSoFar(before, all, done, map[], told, kind)
    ensures told == Drained(before, all, kind)
  {
    assert done == all;
  }

  /** The loop over the requests still pending when the worker stops, in the map's own order. */
  method DrainLoop(answers: map<Waiter, seq<Outcome>>, pending: map<RequestId, Waiter>, kind: ErrorKind)
    returns (told: map<Waiter, seq<Outcome>>)
    requires Injective(pending)
    ensures told == Drained(answers, pending, kind)
  {
    told := answers;
    var left := pending;
    ghost var done: map<RequestId, Waiter> := NothingPending;
    DrainStart(answers, pending, kind);
    while left != map[]
      invariant DrainedSoFar(answers, pending, done, left, told, kind)
      decreases |left.Keys|
    {
      var id :| id in left;
      DrainOne(answers, pending, done, left, told, kind, id);
      told := Tell(told, left[id], WorkerExited(kind));
      done, left := done[id := left[id]], left - {id};
    }
    DrainEnd(answers, pending, done, told, kind);
  }

  lemma ValuesOfUpdate(m: map<RequestId, Waiter>, id: RequestId, w: Waiter)
    requires id !in m
    ensures m[id := w].Values == m.Values + {w}
  {
    var after := m[id := w];
    assert after[id] == w;
    forall x | x in m.Values + {w} ensures x in after.Values {
      if x in m.Values {
        var k :| k in m && m[k] == x;
        assert after[k] == x;
      }
    }
  }

  lemma ValuesOfRemoval(m: map<RequestId, Waiter>, id: RequestId)
    requires id in m && Injective(m)
    ensures (m - {id}).Values == m.Values - {m[id]}
    ensures Injective(m - {id})
  {
    var after := m - {id};
    forall x | x in m.Values - {m[id]} ensures x in after.Values {
      var k :| k in m && m[k] == x;
      assert after[k] == x;
    }
  }

  // ---------------------------------------------------------------- every command is answered once

  predicate Reads(input: Input, w: Waiter) {
    input.FromCaller? && input.waiter == w
  }

  /** The waiters of the commands the worker read before it stopped. */
  function ReadWaiters(s: Worker, inputs: seq<Input>): set<Waiter>
    decreases |inputs|
  {
    if inputs == [] || !s.running then {}
    else (if inputs[0].FromCaller? then {inputs[0].waiter} else {}) + ReadWaiters(Step(s, inputs[0]), inputs[1..])
  }

  predicate DistinctWaiters(inputs: seq<Input>) {
    forall i, j | 0 <= i < j < |inputs| && inputs[i].FromCaller? && inputs[j].FromCaller? ::
      inputs[i].waiter != inputs[j].waiter
  }

  predicate NewWaiters(inputs: seq<Input>, used: set<Waiter>) {
    forall i | 0 <= i < |inputs| && inputs[i].FromCaller? :: inputs[i].waiter !in used
  }

  lemma LaterWaitersAreNew(inputs: seq<Input>, i: nat, used: set<Waiter>)
    requires i < |inputs| && DistinctWaiters(inputs) && NewWaiters(inputs[i..], used)
    ensures inputs[i].FromCaller? ==> inputs[i].waiter !in used
    ensures NewWaiters(inputs[i + 1..], used + if inputs[i].FromCaller? then {inputs[i].waiter} else {})
  {
    assert inputs[i..][0] == inputs[i];
    var later := inputs[i + 1..];
    var more := used + if inputs[i].FromCaller? then {inputs[i].waiter} else {};
    forall k | 0 <= k < |later| && later[k].FromCaller? ensures later[k].waiter !in more {
      assert later[k] == inputs[i..][k + 1] == inputs[i + 1 + k];
    }
  }

  /** The waiters of the commands read so far: exactly the pending ones are still waiting and every other
      one has been told once. */
  ghost predicate AnswersInvariant(s: Worker, used: set<Waiter>) {
    && Injective(s.pending)
    && s.pending.Values <= used
    && (forall w <- s.answers :: w in used)
    && (forall w <- used :: |Told(s.answers, w)| == if w in s.pending.Values then 0 else 1)
    && (!s.running ==> s.pending == map[])
  }

  lemma ExitKeepsAnswers(s: Worker, used: set<Waiter>, kind: ErrorKind)
    requires AnswersInvariant(s, used)
    ensures AnswersInvariant(Exit(s, kind), used)
  {
    assert NothingPending.Values == {};
  }

  lemma TellKeepsAnswers(s: Worker, used: set<Waiter>, w: Waiter, o: Outcome)
    requires AnswersInvariant(s, used) && w !in used
    ensures AnswersInvariant(s.(answers := Tell(s.answers, w, o)), used + {w})
  {
  }

  lemma AnswerKeepsAnswers(s: Worker, used: set<Waiter>, id: RequestId, o: Outcome)
    requires AnswersInvariant(s, used) && s.running
    ensures AnswersInvariant(Answer(s, id, o), used)
  {
    if id in s.pending {
      ValuesOfRemoval(s.pending, id);
    }
  }

  lemma CommandKeepsAnswers(s: Worker, used: set<Waiter>, command: Command, w: Waiter, ok: bool)
    requires AnswersInvariant(s, used) && s.running && w !in used
    ensures AnswersInvariant(StepCommand(s, command, w, ok), used + {w})
  {
    match command
    case SendRequest(id, payload) =>
      if id in s.pending {
        TellKeepsAnswers(s, used, w, DuplicateId);
      } else if ok {
        ValuesOfUpdate(s.pending, id, w);
      } else {
        var told := Write(s, RequestOut(id, payload)).(answers := Tell(s.answers, w, WriteFailed));
        TellKeepsAnswers(s, used, w, WriteFailed);
        ExitKeepsAnswers(Deliver(told, Disconnected("write failed")), used + {w}, BrokenPipe);
      }
    case Shutdown =>
      TellKeepsAnswers(s, used, w, Done(ok));
      ExitKeepsAnswers(s.(answers := Tell(s.answers, w, Done(ok))), used + {w}, BrokenPipe);
    case _ =>
      TellKeepsAnswers(s, used, w, Done(ok));
  }

  lemma FrameKeepsAnswers(s: Worker, used: set<Waiter>, f: Frame, ok: bool)
    requires AnswersInvariant(s, used) && s.running
    ensures AnswersInvariant(StepFrame(s, f, ok), used)
  {
    forall t: Worker, kind | t.pending == s.pending && t.answers == s.answers && t.running
      ensures AnswersInvariant(Exit(t, kind), used) {
      ExitKeepsAnswers(t, used, kind);
    }
    if f.Text? && f.message.Some? {
      match f.message.value
      case Response(id, result) => AnswerKeepsAnswers(s, used, id, Result(result));
      case ErrorReply(id, error) => AnswerKeepsAnswers(s, used, id, ServerError(error));
      case _ =>
    }
  }

  lemma StepKeepsAnswers(s: Worker, used: set<Waiter>, input: Input)
    requires AnswersInvariant(s, used) && s.running && (input.FromCaller? ==> input.waiter !in used)
    ensures AnswersInvariant(Step(s, input), used + if input.FromCaller? then {input.waiter} else {})
  {
    assert used + {} == used;
    match input {
      case FromCaller(command, w, ok) => CommandKeepsAnswers(s, used, command, w, ok);
      case CallersGone => ExitKeepsAnswers(s, used, BrokenPipe);
      case FromStream(frame, ok) => FrameKeepsAnswers(s, used, frame, ok);
      case ReceiverDropped =>
    }
  }

  lemma {:induction false} AnswersOverRun(s: Worker, used: set<Waiter>, inputs: seq<Input>)
    requires AnswersInvariant(s, used) && DistinctWaiters(inputs) && NewWaiters(inputs, used)
    ensures AnswersInvariant(Run(s, inputs), used + ReadWaiters(s, inputs))
    decreases |inputs|
  {
    if inputs == [] || !s.running {
      assert used + {} == used;
      StoppedStays(s, inputs);
    } else {
      var input, rest := inputs[0], inputs[1..];
      var more := if input.FromCaller? then {input.waiter} else {};
      StepKeepsAnswers(s, used, input);
      AnswersOverRun(Step(s, input), used + more, rest);
      assert used + more + ReadWaiters(Step(s, input), rest) == used + ReadWaiters(s, inputs);
    }
  }

  lemma {:induction false} StoppedStays(s: Worker, inputs: seq<Input>)
    ensures !s.running ==> Run(s, inputs) == s
    decreases |inputs|
  {
    if inputs != [] && !s.running {
      StoppedStays(s, inputs[1..]);
    }
  }

  /** Over every run, each command the worker read has been answered exactly once, except the requests
      still pending, which have not been answered; when the worker has stopped, nothing is pending. */
  lemma EveryCommandAnsweredOnce(inputs: seq<Input>, w: Waiter)
    requires DistinctWaiters(inputs) && w in ReadWaiters(Idle, inputs)
    ensures var s := Run(Idle, inputs);
            && |Told(s.answers, w)| == (if w in s.pending.Values then 0 else 1)
            && (!s.running ==> |Told(s.answers, w)| == 1)
            && Injective(s.pending)
  {
    assert NothingPending.Values == {};
    AnswersOverRun(Idle, {}, inputs);
    var s := Run(Idle, inputs);
    assert {} + ReadWaiters(Idle, inputs) == ReadWaiters(Idle, inputs);
  }

  // ---------------------------------------------------------------- the pending map

  /** One request id followed through the run on its own: who, if anyone, waits for it. */
  function Track(open: Option<Waiter>, input: Input, id: RequestId): Option<Waiter> {
    if input.FromCaller? && input.command.SendRequest? && input.command.id == id && open.None? && input.ok
      then Some(input.waiter)
    else if input.FromStream? && input.frame.Text? && input.frame.message.Some?
      && (input.frame.message.value.Response? || input.frame.message.value.ErrorReply?)
      && input.frame.message.value.id == id then None
    else open
  }

  function TrackAll(open: Option<Waiter>, inputs: seq<Input>, id: RequestId): Option<Waiter>
    decreases |inputs|
  {
    if inputs == [] then open else TrackAll(Track(open, inputs[0], id), inputs[1..], id)
  }

  function Lookup(m: map<RequestId, Waiter>, id: RequestId): Option<Waiter> {
    if id in m then Some(m[id]) else None
  }

  lemma TrackCommand(s: Worker, command: Command, w: Waiter, ok: bool, id: RequestId)
    requires s.running && StepCommand(s, command, w, ok).running
    ensures Lookup(StepCommand(s, command, w, ok).pending, id)
         == Track(Lookup(s.pending, id), FromCaller(command, w, ok), id)
  {
  }

  lemma TrackMessage(s: Worker, m: Message, ok: bool, id: RequestId)
    requires s.running && StepMessage(s, m, ok).running
    ensures Lookup(StepMessage(s, m, ok).pending, id)
         == Track(Lookup(s.pending, id), FromStream(Text(Some(m)), ok), id)
  {
  }

  lemma TrackStep(s: Worker, input: Input, id: RequestId)
    requires s.running && Step(s, input).running
    ensures Lookup(Step(s, input).pending, id) == Track(Lookup(s.pending, id), input, id)
  {
    match input
    case FromCaller(command, w, ok) => TrackCommand(s, command, w, ok, id);
    case FromStream(Text(Some(m)), ok) => TrackMessage(s, m, ok, id);
    case _ =>
  }

  /** While the worker runs, the pending map is exactly the accepted and still unanswered ids, each with
      the waiter that was accepted first. */
  lemma {:induction false} PendingIsAcceptedUnanswered(s: Worker, inputs: seq<Input>, id: RequestId)
    requires Run(s, inputs).running
    ensures Lookup(Run(s, inputs).pending, id) == TrackAll(Lookup(s.pending, id), inputs, id)
    decreases |inputs|
  {
    if inputs != [] {
      StoppedStays(s, inputs);
      StoppedStays(Step(s, inputs[0]), inputs[1..]);
      TrackStep(s, inputs[0], id);
      PendingIsAcceptedUnanswered(Step(s, inputs[0]), inputs[1..], id);
    }
  }

  // ---------------------------------------------------------------- routing

  /** The first input that settles a pending request, and how. */
  function FirstAnswer(s: Worker, inputs: seq<Input>, id: RequestId): Option<Outcome>
    decreases |inputs|
  {
    if inputs == [] then None
    else match inputs[0]
      case FromStream(Text(Some(Response(rid, result))), _) =>
        if rid == id then Some(Result(result)) else FirstAnswer(Step(s, inputs[0]), inputs[1..], id)
      case FromStream(Text(Some(ErrorReply(rid, error))), _) =>
        if rid == id then Some(ServerError(error)) else FirstAnswer(Step(s, inputs[0]), inputs[1..], id)
      case _ =>
        if !Step(s, inputs[0]).running then Some(WorkerExited(ExitKind(inputs[0])))
        else FirstAnswer(Step(s, inputs[0]), inputs[1..], id)
  }

  /** The error the pending requests are told when this input ends the worker. */
  function ExitKind(input: Input): ErrorKind {
    match input
    case FromStream(Text(None), _) => InvalidData
    case FromStream(Close(_), _) => ConnectionAborted
    case FromStream(Failed(_), _) => InvalidData
    case FromStream(End, _) => UnexpectedEof
    case _ => BrokenPipe
  }

  /** The drain tells exactly the waiters that are pending. */
  lemma ExitTells(s: Worker, kind: ErrorKind, w: Waiter)
    ensures Told(Exit(s, kind).answers, w)
         == Told(s.answers, w) + if w in s.pending.Values then [WorkerExited(kind)] else []
  {
  }

  lemma DisconnectTells(s: Worker, kind: ErrorKind, message: string, w: Waiter)
    ensures !Disconnect(s, kind, message).running && Disconnect(s, kind, message).pending == map[]
    ensures Told(Disconnect(s, kind, message).answers, w)
         == Told(s.answers, w) + if w in s.pending.Values then [WorkerExited(kind)] else []
  {
    ExitTells(Deliver(s, Disconnected(message)), kind, w);
  }

  /** What a step says to a waiter: its own command's outcome, the answer to its request, or the exit. */
  lemma CommandTells(s: Worker, command: Command, waiter: Waiter, ok: bool, w: Waiter)
    requires s.running && w != waiter
    ensures var t := StepCommand(s, command, waiter, ok);
            && (w in t.pending.Values ==> w in s.pending.Values)
            && (if t.running then Told(t.answers, w) == Told(s.answers, w)
                else Told(t.answers, w)
                     == Told(s.answers, w) + if w in s.pending.Values then [WorkerExited(BrokenPipe)] else [])
  {
    match command
    case SendRequest(id, payload) =>
      if id !in s.pending {
        ValuesOfUpdate(s.pending, id, waiter);
        var told := Write(s, RequestOut(id, payload)).(answers := Tell(s.answers, waiter, WriteFailed));
        DisconnectTells(told, BrokenPipe, "write failed", w);
      }
    case Shutdown => ExitTells(s.(answers := Tell(s.answers, waiter, Done(ok))), BrokenPipe, w);
    case _ =>
  }

  lemma EventTells(s: Worker, e: ServerEvent, w: Waiter)
    requires s.running
    ensures var t := StepEvent(s, e);
            && (t.running ==> t.answers == s.answers && t.pending == s.pending)
            && (!t.running ==> t.pending == map[])
            && (!t.running ==> Told(t.answers, w)
                               == Told(s.answers, w) + if w in s.pending.Values then [WorkerExited(BrokenPipe)] else [])
  {
    ExitTells(s, BrokenPipe, w);
  }

  predicate IsReply(f: Frame) {
    f.Text? && f.message.Some? && (f.message.value.Response? || f.message.value.ErrorReply?)
  }

  lemma FrameTells(s: Worker, f: Frame, ok: bool, w: Waiter)
    requires s.running && !IsReply(f)
    ensures var t := StepFrame(s, f, ok);
            && (t.running ==> t.answers == s.answers && t.pending == s.pending)
            && (!t.running ==> t.pending == map[])
            && (!t.running ==> Told(t.answers, w) == Told(s.answers, w)
                                 + if w in s.pending.Values then [WorkerExited(ExitKind(FromStream(f, ok)))] else [])
  {
    match f
    case Text(None) => DisconnectTells(s, InvalidData, "sent invalid JSON-RPC", w);
    case Text(Some(Notification(event))) =>
      if event.Some? { EventTells(s, event.value, w); }
    case Text(Some(Request(id, method_, event))) =>
      if event.Some? {
        EventTells(s, event.value, w);
      } else {
        DisconnectTells(Write(s, Unsupported(id, method_)), BrokenPipe, "write failed", w);
      }
    case Close(reason) =>
      DisconnectTells(s, ConnectionAborted, "disconnected: " + if reason == "" then "connection closed" else reason, w);
    case Ignored =>
    case Failed(error) => DisconnectTells(s, InvalidData, "transport failed: " + error, w);
    case End => DisconnectTells(s, UnexpectedEof, "closed the connection", w);
  }

  lemma AnswerTells(s: Worker, rid: RequestId, o: Outcome, w: Waiter)
    requires Injective(s.pending)
    ensures var t := Answer(s, rid, o);
            && (w in t.pending.Values ==> w in s.pending.Values)
            && (!(rid in s.pending && s.pending[rid] == w) ==> Told(t.answers, w) == Told(s.answers, w))
  {
    if rid in s.pending {
      ValuesOfRemoval(s.pending, rid);
    }
  }

  /** What one step does to a waiting request that it does not answer by its id. */
  lemma StepElsewhere(s: Worker, input: Input, id: RequestId, w: Waiter)
    requires s.running && Injective(s.pending) && id in s.pending && s.pending[id] == w
    requires !Reads(input, w)
    requires Track(Some(w), input, id) == Some(w)
    ensures var t := Step(s, input);
            if t.running then id in t.pending && t.pending[id] == w && Told(t.answers, w) == Told(s.answers, w)
            else Told(t.answers, w) == Told(s.answers, w) + [WorkerExited(ExitKind(input))]
  {
    assert w in s.pending.Values;
    match input {
      case FromCaller(command, waiter, ok) => CommandTells(s, command, waiter, ok, w);
      case CallersGone => ExitTells(s, BrokenPipe, w);
      case ReceiverDropped =>
      case FromStream(f, ok) =>
        if IsReply(f) {
          AnswerTells(s, f.message.value.id, if f.message.value.Response? then Result(f.message.value.result)
                                             else ServerError(f.message.value.error), w);
        } else {
          FrameTells(s, f, ok, w);
        }
    }
  }

  /** A waiting request is told exactly its first settling input: the result or error that carries its
      id, or the reason the worker stopped; until then it waits. */
  lemma {:induction false} RequestGetsItsAnswer(s: Worker, used: set<Waiter>, inputs: seq<Input>, id: RequestId,
                                                w: Waiter)
    requires AnswersInvariant(s, used) && DistinctWaiters(inputs) && NewWaiters(inputs, used)
    requires s.running && id in s.pending && s.pending[id] == w
    ensures var t := Run(s, inputs);
            match FirstAnswer(s, inputs, id)
            case Some(o) => Told(t.answers, w) == [o]
            case None => id in t.pending && t.pending[id] == w && Told(t.answers, w) == []
    decreases |inputs|
  {
    assert w in s.pending.Values;
    assert Told(s.answers, w) == [];
    if inputs != [] {
      var input, rest := inputs[0], inputs[1..];
      var t := Step(s, input);
      var more := if input.FromCaller? then {input.waiter} else {};
      StepKeepsAnswers(s, used, input);
      if Track(Some(w), input, id) == Some(w) {
        StepElsewhere(s, input, id, w);
        if t.running {
          RequestGetsItsAnswer(t, used + more, rest, id, w);
        } else {
          StoppedStays(t, rest);
        }
      } else {
        assert Told(t.answers, w) == Told(s.answers, w) + [FirstAnswer(s, inputs, id).value];
        ToldStays(t, used + more, rest, w);
      }
    }
  }

  /** A step tells nothing to a waiter that neither waits nor comes with the step. */
  lemma StepToldStays(s: Worker, input: Input, w: Waiter)
    requires s.running && Injective(s.pending) && w !in s.pending.Values && !Reads(input, w)
    ensures Told(Step(s, input).answers, w) == Told(s.answers, w)
    ensures w !in Step(s, input).pending.Values
  {
    assert NothingPending.Values == {};
    match input {
      case FromCaller(command, waiter, ok) => CommandTells(s, command, waiter, ok, w);
      case CallersGone => ExitTells(s, BrokenPipe, w);
      case ReceiverDropped =>
      case FromStream(f, ok) =>
        if IsReply(f) {
          var id := f.message.value.id;
          assert id in s.pending ==> s.pending[id] in s.pending.Values;
          AnswerTells(s, id, if f.message.value.Response? then Result(f.message.value.result)
                             else ServerError(f.message.value.error), w);
        } else {
          FrameTells(s, f, ok, w);
        }
    }
  }

  /** A waiter that has been told and does not wait for anything is told nothing more. */
  lemma {:induction false} ToldStays(s: Worker, used: set<Waiter>, inputs: seq<Input>, w: Waiter)
    requires AnswersInvariant(s, used) && DistinctWaiters(inputs) && NewWaiters(inputs, used)
    requires w in used && w !in s.pending.Values
    ensures Told(Run(s, inputs).answers, w) == Told(s.answers, w)
    decreases |inputs|
  {
    if inputs != [] && s.running {
      var input, rest := inputs[0], inputs[1..];
      var more := if input.FromCaller? then {input.waiter} else {};
      StepKeepsAnswers(s, used, input);
      StepToldStays(s, input, w);
      ToldStays(Step(s, input), used + more, rest, w);
    } else {
      StoppedStays(s, inputs);
    }
  }

  // ---------------------------------------------------------------- duplicates

  lemma {:induction false} RunAppend(s: Worker, a: seq<Input>, b: seq<Input>)
    ensures Run(s, a + b) == Run(Run(s, a), b)
    decreases |a|
  {
    if a == [] {
      assert a + b == b;
    } else {
      assert (a + b)[1..] == a[1..] + b;
      RunAppend(Step(s, a[0]), a[1..], b);
    }
  }

  /** The same state but for what the waiters have been told. */
  predicate Alike(s: Worker, t: Worker) {
    && s.pending == t.pending && s.running == t.running && s.receiverOpen == t.receiverOpen
    && s.events == t.events && s.written == t.written
  }

  lemma CommandIgnoresAnswers(s: Worker, t: Worker, command: Command, w: Waiter, ok: bool)
    requires Alike(s, t)
    ensures Alike(StepCommand(s, command, w, ok), StepCommand(t, command, w, ok))
  {
  }

  lemma DisconnectIgnoresAnswers(s: Worker, t: Worker, kind: ErrorKind, message: string)
    requires Alike(s, t)
    ensures Alike(Disconnect(s, kind, message), Disconnect(t, kind, message))
  {
  }

  lemma EventIgnoresAnswers(s: Worker, t: Worker, e: ServerEvent)
    requires Alike(s, t)
    ensures Alike(StepEvent(s, e), StepEvent(t, e))
  {
  }

  lemma AnswerIgnoresAnswers(s: Worker, t: Worker, id: RequestId, o: Outcome)
    requires Alike(s, t)
    ensures Alike(Answer(s, id, o), Answer(t, id, o))
  {
  }

  lemma MessageIgnoresAnswers(s: Worker, t: Worker, m: Message, ok: bool)
    requires Alike(s, t)
    ensures Alike(StepMessage(s, m, ok), StepMessage(t, m, ok))
  {
    match m
    case Response(id, result) => AnswerIgnoresAnswers(s, t, id, Result(result));
    case ErrorReply(id, error) => AnswerIgnoresAnswers(s, t, id, ServerError(error));
    case Notification(None) =>
    case Notification(Some(e)) => EventIgnoresAnswers(s, t, e);
    case Request(_, _, Some(e)) => EventIgnoresAnswers(s, t, e);
    case Request(id, method_, None) =>
      var out := Unsupported(id, method_);
      DisconnectIgnoresAnswers(Write(s, out), Write(t, out), BrokenPipe, "write failed");
  }

  lemma FrameIgnoresAnswers(s: Worker, t: Worker, f: Frame, ok: bool)
    requires Alike(s, t)
    ensures Alike(StepFrame(s, f, ok), StepFrame(t, f, ok))
  {
    match f
    case Text(None) => DisconnectIgnoresAnswers(s, t, InvalidData, "sent invalid JSON-RPC");
    case Text(Some(m)) => MessageIgnoresAnswers(s, t, m, ok);
    case Close(reason) =>
      DisconnectIgnoresAnswers(s, t, ConnectionAborted,
                               "disconnected: " + if reason == "" then "connection closed" else reason);
    case Ignored =>
    case Failed(error) => DisconnectIgnoresAnswers(s, t, InvalidData, "transport failed: " + error);
    case End => DisconnectIgnoresAnswers(s, t, UnexpectedEof, "closed the connection");
  }

  /** What the waiters have been told does not steer the worker. */
  lemma StepIgnoresAnswers(s: Worker, t: Worker, input: Input)
    requires Alike(s, t)
    ensures Alike(Step(s, input), Step(t, input))
  {
    match input
    case FromCaller(command, w, ok) => CommandIgnoresAnswers(s, t, command, w, ok);
    case FromStream(f, ok) => FrameIgnoresAnswers(s, t, f, ok);
    case _ =>
  }

  lemma {:induction false} RunIgnoresAnswers(s: Worker, t: Worker, inputs: seq<Input>)
    requires Alike(s, t)
    ensures Alike(Run(s, inputs), Run(t, inputs))
    decreases |inputs|
  {
    if inputs != [] {
      StepIgnoresAnswers(s, t, inputs[0]);
      RunIgnoresAnswers(Step(s, inputs[0]), Step(t, inputs[0]), inputs[1..]);
    }
  }

  lemma {:induction false} FirstAnswerIgnoresAnswers(s: Worker, t: Worker, inputs: seq<Input>, id: RequestId)
    requires Alike(s, t)
    ensures FirstAnswer(t, inputs, id) == FirstAnswer(s, inputs, id)
    decreases |inputs|
  {
    if inputs != [] {
      StepIgnoresAnswers(s, t, inputs[0]);
      FirstAnswerIgnoresAnswers(Step(s, inputs[0]), Step(t, inputs[0]), inputs[1..], id);
    }
  }

  lemma {:induction false} ReadWaitersAreInputs(s: Worker, inputs: seq<Input>, w: Waiter)
    requires w in ReadWaiters(s, inputs)
    ensures exists i :: 0 <= i < |inputs| && Reads(inputs[i], w)
    decreases |inputs|
  {
    if Reads(inputs[0], w) {
      assert Reads(inputs[0], w);
    } else {
      ReadWaitersAreInputs(Step(s, inputs[0]), inputs[1..], w);
      var i :| 0 <= i < |inputs[1..]| && Reads(inputs[1..][i], w);
      assert Reads(inputs[i + 1], w);
    }
  }

  /** Waiters of later inputs were not read before. */
  lemma LaterWaitersUnread(s: Worker, before: seq<Input>, later: seq<Input>)
    requires DistinctWaiters(before + later)
    ensures DistinctWaiters(before) && DistinctWaiters(later) && NewWaiters(later, ReadWaiters(s, before))
  {
    var all := before + later;
    assert forall i | 0 <= i < |before| :: all[i] == before[i];
    assert forall i | 0 <= i < |later| :: all[|before| + i] == later[i];
    forall i | 0 <= i < |later| && later[i].FromCaller? ensures later[i].waiter !in ReadWaiters(s, before) {
      if later[i].waiter in ReadWaiters(s, before) {
        ReadWaitersAreInputs(s, before, later[i].waiter);
      }
    }
  }

  lemma RefusedFrom(s: Worker, used: set<Waiter>, id: RequestId, payload: string, w: Waiter, ok: bool,
                    after: seq<Input>)
    requires AnswersInvariant(s, used) && s.running && id in s.pending && w !in used
    requires DistinctWaiters(after) && NewWaiters(after, used + {w})
    ensures var t := Run(Step(s, FromCaller(SendRequest(id, payload), w, ok)), after);
            && Alike(Run(s, after), t)
            && Told(t.answers, w) == [DuplicateId]
            && match FirstAnswer(s, after, id)
               case Some(o) => Told(t.answers, s.pending[id]) == [o]
               case None => id in t.pending && t.pending[id] == s.pending[id] && Told(t.answers, s.pending[id]) == []
  {
    var dup := FromCaller(SendRequest(id, payload), w, ok);
    var s1 := Step(s, dup);
    StepKeepsAnswers(s, used, dup);
    assert Alike(s, s1) && Told(s1.answers, w) == [DuplicateId];
    ToldStays(s1, used + {w}, after, w);
    RunIgnoresAnswers(s, s1, after);
    FirstAnswerIgnoresAnswers(s, s1, after, id);
    RequestGetsItsAnswer(s1, used + {w}, after, id, s.pending[id]);
  }

  /** Over every run, a request whose id is pending is refused: its waiter is told so and never anything else,
      the worker goes on as if the duplicate had not come, and the first waiter is told what settles the id
      afterwards. */
  lemma DuplicateIsRefused(before: seq<Input>, id: RequestId, payload: string, w: Waiter, ok: bool, after: seq<Input>)
    requires DistinctWaiters(before + ([FromCaller(SendRequest(id, payload), w, ok)] + after))
    requires Run(Idle, before).running && id in Run(Idle, before).pending
    ensures var s := Run(Idle, before);
            var t := Run(Idle, before + ([FromCaller(SendRequest(id, payload), w, ok)] + after));
            && Alike(Run(Idle, before + after), t)
            && Told(t.answers, w) == [DuplicateId]
            && match FirstAnswer(s, after, id)
               case Some(o) => Told(t.answers, s.pending[id]) == [o]
               case None => id in t.pending && t.pending[id] == s.pending[id] && Told(t.answers, s.pending[id]) == []
  {
    var dup := FromCaller(SendRequest(id, payload), w, ok);
    var s, used, later := Run(Idle, before), ReadWaiters(Idle, before), [dup] + after;
    LaterWaitersUnread(Idle, before, later);
    assert NothingPending.Values == {};
    AnswersOverRun(Idle, {}, before);
    assert {} + used == used;
    assert later[0] == dup && later[1..] == after;
    LaterWaitersAreNew(later, 0, used);
    assert later[0..] == later;
    assert DistinctWaiters(after) by {
      assert forall i | 0 <= i < |after| :: later[i + 1] == after[i];
    }
    RunAppend(Idle, before, later);
    RunAppend(Idle, before, after);
    RefusedFrom(s, used, id, payload, w, ok, after);
  }

  // ---------------------------------------------------------------- the other commands

  /** What a command's waiter is told at once: whether the write went through, or why a request was not sent. */
  function AtOnce(command: Command, taken: bool, ok: bool): Outcome {
    if !command.SendRequest? then Done(ok) else if taken then DuplicateId else WriteFailed
  }

  lemma CommandTellsAtOnce(s: Worker, used: set<Waiter>, command: Command, w: Waiter, ok: bool)
    requires AnswersInvariant(s, used) && s.running && w !in used
    requires command.SendRequest? ==> command.id in s.pending || !ok
    ensures var t := Step(s, FromCaller(command, w, ok));
            && Told(t.answers, w) == [AtOnce(command, command.SendRequest? && command.id in s.pending, ok)]
            && w !in t.pending.Values
  {
    assert NothingPending.Values == {};
    match command
    case SendRequest(id, payload) =>
      if id !in s.pending {
        var told := Write(s, RequestOut(id, payload)).(answers := Tell(s.answers, w, WriteFailed));
        DisconnectTells(told, BrokenPipe, "write failed", w);
      }
    case Shutdown => ExitTells(s.(answers := Tell(s.answers, w, Done(ok))), BrokenPipe, w);
    case _ =>
  }

  /** Over every run, a notification, an answer to a server request and a shutdown are told whether their write
      went through, and a request that was not sent is told why; and none of them anything else. */
  lemma CommandsAreToldTheirOutcome(before: seq<Input>, command: Command, w: Waiter, ok: bool, after: seq<Input>)
    requires DistinctWaiters(before + ([FromCaller(command, w, ok)] + after)) && Run(Idle, before).running
    requires command.SendRequest? ==> command.id in Run(Idle, before).pending || !ok
    ensures Told(Run(Idle, before + ([FromCaller(command, w, ok)] + after)).answers, w)
         == [AtOnce(command, command.SendRequest? && command.id in Run(Idle, before).pending, ok)]
  {
    var input := FromCaller(command, w, ok);
    var s, used, later := Run(Idle, before), ReadWaiters(Idle, before), [input] + after;
    LaterWaitersUnread(Idle, before, later);
    assert NothingPending.Values == {};
    AnswersOverRun(Idle, {}, before);
    assert {} + used == used;
    assert later[0] == input && later[1..] == after && later[0..] == later;
    LaterWaitersAreNew(later, 0, used);
    assert DistinctWaiters(after) by {
      assert forall i | 0 <= i < |after| :: later[i + 1] == after[i];
    }
    RunAppend(Idle, before, later);
    StepKeepsAnswers(s, used, input);
    CommandTellsAtOnce(s, used, command, w, ok);
    ToldStays(Step(s, input), used + {w}, after, w);
  }

  // ---------------------------------------------------------------- events in wire order

  /** The event a frame carries: a notification or a request the client knows. */
  function EventOf(f: Frame): seq<ServerEvent> {
    if f.Text? && f.message.Some? && (f.message.value.Notification? || f.message.value.Request?)
       && f.message.value.event.Some? then [f.message.value.event.value]
    else []
  }

  /** The reply an unknown server request calls for. */
  function RefusalOf(f: Frame): seq<Outgoing> {
    if f.Text? && f.message.Some? && f.message.value.Request? && f.message.value.event.None?
    then [Unsupported(f.message.value.id, f.message.value.method_)]
    else []
  }

  function WireEvents(inputs: seq<Input>): seq<ServerEvent> {
    if inputs == [] then []
    else (if inputs[0].FromStream? then EventOf(inputs[0].frame) else []) + WireEvents(inputs[1..])
  }

  function FromServerAll(events: seq<ServerEvent>): seq<AppServerEvent> {
    seq(|events|, i requires 0 <= i < |events| => FromServer(events[i]))
  }

  /** The inputs that lose the connection: undecodable text, a close, a transport error, the end, and a failed
      write of a new request or of the refusal of an unknown one. `taken` says whether a request's id is pending. */
  predicate Loses(input: Input, taken: bool) {
    match input
    case FromStream(Text(None), _) => true
    case FromStream(Close(_), _) => true
    case FromStream(Failed(_), _) => true
    case FromStream(End, _) => true
    case FromStream(Text(Some(Request(_, _, None))), ok) => !ok
    case FromCaller(SendRequest(_, _), _, ok) => !ok && !taken
    case _ => false
  }

  /** What the caller is told about it. */
  function LossMessage(input: Input): string {
    match input
    case FromStream(Text(None), _) => "sent invalid JSON-RPC"
    case FromStream(Close(reason), _) => "disconnected: " + if reason == "" then "connection closed" else reason
    case FromStream(Failed(error), _) => "transport failed: " + error
    case FromStream(End, _) => "closed the connection"
    case _ => "write failed"
  }

  predicate IsTaken(s: Worker, input: Input) {
    input.FromCaller? && input.command.SendRequest? && input.command.id in s.pending
  }

  /** The inputs that end the worker: a lost connection, a shutdown, callers that are gone, and an event that
      nobody receives any more. */
  predicate Ends(input: Input, taken: bool, open: bool) {
    || Loses(input, taken)
    || input.CallersGone?
    || (input.FromCaller? && input.command.Shutdown?)
    || (input.FromStream? && EventOf(input.frame) != [] && !open)
  }

  /** What a step adds to the event channel: the frame's event, or the disconnect event of a lost connection. */
  function Delivered(s: Worker, input: Input): seq<AppServerEvent> {
    if !s.receiverOpen then []
    else if Loses(input, IsTaken(s, input)) then [Disconnected(LossMessage(input))]
    else FromServerAll(if input.FromStream? then EventOf(input.frame) else [])
  }

  lemma DisconnectDelivers(s: Worker, kind: ErrorKind, message: string)
    ensures !Disconnect(s, kind, message).running
    ensures Disconnect(s, kind, message).events == s.events + if s.receiverOpen then [Disconnected(message)] else []
  {
  }

  lemma CommandDelivers(s: Worker, command: Command, waiter: Waiter, ok: bool)
    requires s.running
    ensures var t, input := StepCommand(s, command, waiter, ok), FromCaller(command, waiter, ok);
            && t.events == s.events + Delivered(s, input)
            && (t.running <==> !Ends(input, IsTaken(s, input), s.receiverOpen))
  {
    assert s.events + FromServerAll([]) == s.events + [] == s.events;
    match command
    case SendRequest(id, payload) =>
      DisconnectDelivers(Write(s, RequestOut(id, payload)).(answers := Tell(s.answers, waiter, WriteFailed)),
                         BrokenPipe, "write failed");
    case _ =>
  }

  lemma EventDelivers(s: Worker, e: ServerEvent)
    requires s.running
    ensures StepEvent(s, e).events == s.events + if s.receiverOpen then [FromServer(e)] else []
    ensures StepEvent(s, e).running == s.receiverOpen
  {
  }

  lemma MessageDelivers(s: Worker, m: Message, ok: bool)
    requires s.running
    ensures var t, input := StepMessage(s, m, ok), FromStream(Text(Some(m)), ok);
            && t.events == s.events + Delivered(s, input)
            && (t.running <==> !Ends(input, false, s.receiverOpen))
  {
    assert s.events + FromServerAll([]) == s.events + [] == s.events;
    match m
    case Notification(Some(e)) =>
      EventDelivers(s, e);
      assert FromServerAll([e]) == [FromServer(e)];
    case Request(id, method_, Some(e)) =>
      EventDelivers(s, e);
      assert FromServerAll([e]) == [FromServer(e)];
    case Request(id, method_, None) =>
      DisconnectDelivers(Write(s, Unsupported(id, method_)), BrokenPipe, "write failed");
    case _ =>
  }

  lemma FrameDelivers(s: Worker, f: Frame, ok: bool)
    requires s.running
    ensures var t, input := StepFrame(s, f, ok), FromStream(f, ok);
            && t.events == s.events + Delivered(s, input)
            && (t.running <==> !Ends(input, false, s.receiverOpen))
  {
    assert s.events + FromServerAll([]) == s.events + [] == s.events;
    match f
    case Text(None) => DisconnectDelivers(s, InvalidData, "sent invalid JSON-RPC");
    case Text(Some(m)) => MessageDelivers(s, m, ok);
    case Close(reason) =>
      DisconnectDelivers(s, ConnectionAborted, "disconnected: " + if reason == "" then "connection closed" else reason);
    case Ignored =>
    case Failed(error) => DisconnectDelivers(s, InvalidData, "transport failed: " + error);
    case End => DisconnectDelivers(s, UnexpectedEof, "closed the connection");
  }

  /** What one step delivers, and exactly when it ends the worker. */
  lemma StepDelivers(s: Worker, input: Input)
    requires s.running
    ensures Step(s, input).events == s.events + Delivered(s, input)
    ensures Step(s, input).running <==> !Ends(input, IsTaken(s, input), s.receiverOpen)
  {
    match input
    case FromCaller(command, waiter, ok) => CommandDelivers(s, command, waiter, ok);
    case FromStream(f, ok) => FrameDelivers(s, f, ok);
    case _ => assert s.events + FromServerAll([]) == s.events + [] == s.events;
  }

  /** A worker that goes on has delivered the input's own event. */
  lemma RunningDelivers(s: Worker, input: Input)
    requires s.running && Step(s, input).running
    ensures Delivered(s, input) == FromServerAll(if input.FromStream? then EventOf(input.frame) else [])
  {
    StepDelivers(s, input);
    assert FromServerAll([]) == [];
  }

  /** The inputs the worker handled and went on after: all but the one that stopped it and what followed. */
  function Kept(s: Worker, inputs: seq<Input>): seq<Input>
    decreases |inputs|
  {
    if inputs == [] || !s.running || !Step(s, inputs[0]).running then []
    else [inputs[0]] + Kept(Step(s, inputs[0]), inputs[1..])
  }

  lemma {:induction false} KeptIffRunning(s: Worker, inputs: seq<Input>, i: nat)
    requires s.running && i <= |inputs|
    ensures Kept(s, inputs) <= inputs
    ensures Run(s, inputs[..i]).running <==> i <= |Kept(s, inputs)|
    decreases |inputs|
  {
    if inputs != [] {
      var next := Step(s, inputs[0]);
      if next.running {
        KeptIffRunning(next, inputs[1..], if i == 0 then 0 else i - 1);
      } else if i > 0 {
        StoppedStays(next, inputs[..i][1..]);
      }
      assert i > 0 ==> inputs[..i][1..] == inputs[1..][..i - 1];
    }
  }

  lemma {:induction false} WireEventsCons(input: Input, rest: seq<Input>)
    ensures WireEvents([input] + rest) == (if input.FromStream? then EventOf(input.frame) else []) + WireEvents(rest)
  {
    assert ([input] + rest)[1..] == rest;
  }

  /** The last event of a worker that stops at the first of these inputs: a disconnect event exactly when that
      input loses the connection and somebody still receives. */
  function LastWord(s: Worker, rest: seq<Input>): seq<AppServerEvent> {
    if rest != [] && s.receiverOpen && Loses(rest[0], IsTaken(s, rest[0])) then [Disconnected(LossMessage(rest[0]))]
    else []
  }

  lemma EndingDelivers(s: Worker, input: Input, rest: seq<Input>)
    requires s.running && !Step(s, input).running
    ensures Run(s, [input] + rest).events == s.events + FromServerAll([]) + LastWord(s, [input] + rest)
  {
    StepDelivers(s, input);
    StoppedStays(Step(s, input), rest);
    assert ([input] + rest)[1..] == rest;
    assert s.events + FromServerAll([]) == s.events;
  }

  /** The delivered events follow the wire: they are exactly the known notifications and requests of the inputs
      before the one that stopped the worker, in order, and then a disconnect event exactly when that input
      lost the connection and somebody still received. */
  lemma {:induction false} EventsFollowTheWire(s: Worker, inputs: seq<Input>)
    requires s.running
    ensures var kept := Kept(s, inputs);
            && kept <= inputs
            && Run(s, inputs).events
               == s.events + FromServerAll(WireEvents(kept)) + LastWord(Run(s, kept), inputs[|kept|..])
    decreases |inputs|
  {
    if inputs == [] {
      assert s.events + FromServerAll([]) + [] == s.events;
    } else {
      var input, rest := inputs[0], inputs[1..];
      var t := Step(s, input);
      assert [input] + rest == inputs;
      if t.running {
        var arrived := if input.FromStream? then EventOf(input.frame) else [];
        var kept := Kept(t, rest);
        StepDelivers(s, input);
        RunningDelivers(s, input);
        EventsFollowTheWire(t, rest);
        WireEventsCons(input, kept);
        assert ([input] + kept)[1..] == kept && inputs[1 + |kept|..] == rest[|kept|..];
        JoinEvents(s.events, arrived, WireEvents(kept), LastWord(Run(t, kept), rest[|kept|..]));
      } else {
        EndingDelivers(s, input, rest);
      }
    }
  }

  lemma JoinEvents(front: seq<AppServerEvent>, a: seq<ServerEvent>, b: seq<ServerEvent>, tail: seq<AppServerEvent>)
    ensures front + FromServerAll(a) + FromServerAll(b) + tail == front + FromServerAll(a + b) + tail
  {
    assert FromServerAll(a + b) == FromServerAll(a) + FromServerAll(b);
  }

  // ---------------------------------------------------------------- unknown server requests

  /** The frames the worker read before it stopped. */
  function ReadFrames(s: Worker, inputs: seq<Input>): seq<Frame>
    decreases |inputs|
  {
    if inputs == [] || !s.running then []
    else (if inputs[0].FromStream? then [inputs[0].frame] else []) + ReadFrames(Step(s, inputs[0]), inputs[1..])
  }

  function Refusals(frames: seq<Frame>): seq<Outgoing> {
    if frames == [] then [] else RefusalOf(frames[0]) + Refusals(frames[1..])
  }

  function RefusalsIn(written: seq<Outgoing>): seq<Outgoing> {
    if written == [] then []
    else RefusalsIn(written[..|written| - 1])
         + if written[|written| - 1].UnsupportedOut? then [written[|written| - 1]] else []
  }

  lemma {:induction false} RefusalsPush(written: seq<Outgoing>, out: Outgoing)
    ensures RefusalsIn(written + [out]) == RefusalsIn(written) + if out.UnsupportedOut? then [out] else []
  {
    assert (written + [out])[..|written|] == written;
  }

  lemma {:induction false} RefusalsInOne(out: Outgoing)
    ensures RefusalsIn([out]) == if out.UnsupportedOut? then [out] else []
  {
    assert [out][..0] == [];
  }

  /** What one step attempts to write. */
  function WrittenBy(s: Worker, input: Input): seq<Outgoing> {
    match input
    case FromStream(f, _) => RefusalOf(f)
    case FromCaller(SendRequest(id, payload), _, _) => if id in s.pending then [] else [RequestOut(id, payload)]
    case FromCaller(Notify(payload), _, _) => [NotificationOut(payload)]
    case FromCaller(Resolve(id, result), _, _) => [ResponseOut(id, result)]
    case FromCaller(Reject(id, error), _, _) => [ErrorOut(id, error)]
    case _ => []
  }

  lemma {:induction false} CommandWrites(s: Worker, command: Command, waiter: Waiter, ok: bool)
    ensures StepCommand(s, command, waiter, ok).written
         == s.written + WrittenBy(s, FromCaller(command, waiter, ok))
  {
  }

  lemma {:induction false} FrameWrites(s: Worker, f: Frame, ok: bool)
    ensures StepFrame(s, f, ok).written == s.written + RefusalOf(f)
  {
    assert s.written + [] == s.written;
    match f
    case Text(Some(Request(id, method_, None))) => assert RefusalOf(f) == [Unsupported(id, method_)];
    case Text(Some(_)) => assert RefusalOf(f) == [];
    case _ => assert RefusalOf(f) == [];
  }

  lemma {:induction false} RefusalsAppend(written: seq<Outgoing>, out: seq<Outgoing>)
    requires |out| <= 1
    ensures RefusalsIn(written + out) == RefusalsIn(written) + RefusalsIn(out)
  {
    if out == [] {
      assert written + out == written;
    } else {
      assert out == [out[0]];
      RefusalsPush(written, out[0]);
      RefusalsInOne(out[0]);
    }
  }

  lemma {:induction false} StepRefuses(s: Worker, input: Input)
    requires s.running
    ensures RefusalsIn(Step(s, input).written)
         == RefusalsIn(s.written) + if input.FromStream? then RefusalOf(input.frame) else []
  {
    var out := WrittenBy(s, input);
    match input {
      case FromCaller(command, waiter, ok) => CommandWrites(s, command, waiter, ok);
      case FromStream(f, ok) => FrameWrites(s, f, ok);
      case _ => assert s.written + [] == s.written;
    }
    RefusalsAppend(s.written, out);
    RefusalsOfOne(s, input);
  }

  lemma {:induction false} RefusalsOfOne(s: Worker, input: Input)
    ensures RefusalsIn(WrittenBy(s, input)) == if input.FromStream? then RefusalOf(input.frame) else []
  {
    var out := WrittenBy(s, input);
    if out != [] {
      assert out == [out[0]];
      RefusalsInOne(out[0]);
    }
  }

  lemma {:induction false} RefusalsRead(s: Worker, inputs: seq<Input>)
    requires inputs != [] && s.running
    ensures Refusals(ReadFrames(s, inputs))
         == (if inputs[0].FromStream? then RefusalOf(inputs[0].frame) else [])
            + Refusals(ReadFrames(Step(s, inputs[0]), inputs[1..]))
  {
    var others := ReadFrames(Step(s, inputs[0]), inputs[1..]);
    if inputs[0].FromStream? {
      assert ([inputs[0].frame] + others)[1..] == others;
    } else {
      assert [] + others == others && [] + Refusals(others) == Refusals(others);
    }
  }

  lemma JoinOutgoing(a: seq<Outgoing>, b: seq<Outgoing>, c: seq<Outgoing>)
    ensures a + b + c == a + (b + c)
  {
  }

  /** Every unknown server request the worker read, and nothing else, got one method-not-found reply
      written for it, in order. */
  lemma {:induction false} UnknownRequestsRefused(s: Worker, inputs: seq<Input>)
    ensures RefusalsIn(Run(s, inputs).written) == RefusalsIn(s.written) + Refusals(ReadFrames(s, inputs))
    decreases |inputs|
  {
    if inputs == [] || !s.running {
      StoppedStays(s, inputs);
    } else {
      var input, next := inputs[0], Step(s, inputs[0]);
      StepRefuses(s, input);
      UnknownRequestsRefused(next, inputs[1..]);
      RefusalsRead(s, inputs);
      JoinOutgoing(RefusalsIn(s.written), if input.FromStream? then RefusalOf(input.frame) else [],
                   Refusals(ReadFrames(next, inputs[1..])));
    }
  }

  /** What the inputs the worker read call for: each command's message, nothing for a duplicate, and a refusal for
      each unknown server request. */
  function WritesOf(s: Worker, inputs: seq<Input>): seq<Outgoing>
    decreases |inputs|
  {
    if inputs == [] || !s.running then [] else WrittenBy(s, inputs[0]) + WritesOf(Step(s, inputs[0]), inputs[1..])
  }

  lemma StepWrites(s: Worker, input: Input)
    requires s.running
    ensures Step(s, input).written == s.written + WrittenBy(s, input)
  {
    match input
    case FromCaller(command, waiter, ok) => CommandWrites(s, command, waiter, ok);
    case FromStream(f, ok) => FrameWrites(s, f, ok);
    case _ => assert s.written + [] == s.written;
  }

  /** Over every run, the messages written are exactly those the inputs read call for, in order. */
  lemma {:induction false} WritesFollowInputs(s: Worker, inputs: seq<Input>)
    ensures Run(s, inputs).written == s.written + WritesOf(s, inputs)
    decreases |inputs|
  {
    if inputs == [] || !s.running {
      StoppedStays(s, inputs);
    } else {
      var next := Step(s, inputs[0]);
      StepWrites(s, inputs[0]);
      WritesFollowInputs(next, inputs[1..]);
      JoinOutgoing(s.written, WrittenBy(s, inputs[0]), WritesOf(next, inputs[1..]));
    }
  }

  // ---------------------------------------------------------------- the handshake

  const INITIALIZE: RequestId := "initialize"

  datatype HandshakeError = HandshakeWriteFailed | InvalidInitialize | Rejected | ClosedEarly | TransportFailed
    | TimedOut

  /** `left` are the frames not yet read when the connection is ready. */
  datatype Handshake =
    | Connected(events: seq<AppServerEvent>, replies: seq<Outgoing>, left: seq<Input>)
    | NotConnected(error: HandshakeError)

  /** The loop that waits for the response to `initialize`; frames that run out stand for the timeout. */
  function Await(frames: seq<Input>, events: seq<AppServerEvent>, replies: seq<Outgoing>): (h: Handshake)
    requires forall i | 0 <= i < |frames| :: frames[i].FromStream?
    ensures h.Connected? ==> |h.left| <= |frames|
    decreases |frames|
  {
    if frames == [] then NotConnected(TimedOut)
    else
      var rest := frames[1..];
      match frames[0].frame
      case Ignored => Await(rest, events, replies)
      case Close(_) => NotConnected(ClosedEarly)
      case Failed(_) => NotConnected(TransportFailed)
      case End => NotConnected(ClosedEarly)
      case Text(None) => NotConnected(InvalidInitialize)
      case Text(Some(m)) =>
        match m
        case Response(id, _) =>
          if id == INITIALIZE then Connected(events, replies, rest) else Await(rest, events, replies)
        case ErrorReply(id, _) => if id == INITIALIZE then NotConnected(Rejected) else Await(rest, events, replies)
        case Notification(None) => Await(rest, events, replies)
        case Notification(Some(e)) => Await(rest, events + [FromServer(e)], replies)
        case Request(_, _, Some(e)) => Await(rest, events + [FromServer(e)], replies)
        case Request(id, method_, None) =>
          if frames[0].ok then Await(rest, events, replies + [Unsupported(id, method_)])
          else NotConnected(HandshakeWriteFailed)
  }

  /** The whole handshake: the request, the wait, and the `initialized` notification. */
  function InitializeConnection(frames: seq<Input>, requestOk: bool, initializedOk: bool): Handshake
    requires forall i | 0 <= i < |frames| :: frames[i].FromStream?
  {
    if !requestOk then NotConnected(HandshakeWriteFailed)
    else
      var h := Await(frames, [], []);
      if h.Connected? && !initializedOk then NotConnected(HandshakeWriteFailed) else h
  }

  method InitializeRemoteConnection(frames: seq<Input>, requestOk: bool, initializedOk: bool) returns (h: Handshake)
    requires forall i | 0 <= i < |frames| :: frames[i].FromStream?
    ensures h == InitializeConnection(frames, requestOk, initializedOk)
  {
    if !requestOk {
      return NotConnected(HandshakeWriteFailed);
    }
    var events: seq<AppServerEvent>, replies: seq<Outgoing> := [], [];
    var left := frames;
    while true
      invariant forall i | 0 <= i < |left| :: left[i].FromStream?
      invariant Await(frames, [], []) == Await(left, events, replies)
      decreases |left|
    {
      if left == [] {
        return NotConnected(TimedOut);
      }
      var input := left[0];
      left := left[1..];
      match input.frame {
        case Ignored =>
        case Close(_) => return NotConnected(ClosedEarly);
        case Failed(_) => return NotConnected(TransportFailed);
        case End => return NotConnected(ClosedEarly);
        case Text(None) => return NotConnected(InvalidInitialize);
        case Text(Some(m)) =>
          match m {
            case Response(id, _) =>
              if id == INITIALIZE {
                return if initializedOk then Connected(events, replies, left) else NotConnected(HandshakeWriteFailed);
              }
            case ErrorReply(id, _) =>
              if id == INITIALIZE {
                return NotConnected(Rejected);
              }
            case Notification(event) =>
              if event.Some? {
                events := events + [FromServer(event.value)];
              }
            case Request(id, method_, event) =>
              if event.Some? {
                events := events + [FromServer(event.value)];
              } else if input.ok {
                replies := replies + [Unsupported(id, method_)];
              } else {
                return NotConnected(HandshakeWriteFailed);
              }
          }
      }
    }
  }

  function FramesOf(inputs: seq<Input>): seq<Frame> {
    if inputs == [] then [] else (if inputs[0].FromStream? then [inputs[0].frame] else []) + FramesOf(inputs[1..])
  }

  predicate IsInitializeResponse(f: Frame) {
    f.Text? && f.message.Some? && f.message.value.Response? && f.message.value.id == INITIALIZE
  }

  /** A frame that does not end the wait adds its event and its refusal. */
  lemma AwaitStep(frames: seq<Input>, events: seq<AppServerEvent>, replies: seq<Outgoing>)
    requires frames != [] && forall i | 0 <= i < |frames| :: frames[i].FromStream?
    requires Await(frames, events, replies).Connected?
    ensures Await(frames, events, replies)
         == if IsInitializeResponse(frames[0].frame) then Connected(events, replies, frames[1..])
            else Await(frames[1..], events + FromServerAll(EventOf(frames[0].frame)),
                       replies + RefusalOf(frames[0].frame))
  {
    assert events + FromServerAll([]) == events && replies + [] == replies;
    var arrived := EventOf(frames[0].frame);
    assert arrived != [] ==> FromServerAll(arrived) == [FromServer(arrived[0])];
  }

  lemma WireOfCons(input: Input, rest: seq<Input>)
    requires input.FromStream?
    ensures WireEvents([input] + rest) == EventOf(input.frame) + WireEvents(rest)
    ensures Refusals(FramesOf([input] + rest)) == RefusalOf(input.frame) + Refusals(FramesOf(rest))
  {
    assert ([input] + rest)[1..] == rest;
    assert ([input.frame] + FramesOf(rest))[1..] == FramesOf(rest);
  }

  /** A handshake that read these frames collected, in wire order, the known notifications and requests among
      them and refused the unknown requests. */
  predicate Follows(h: Handshake, frames: seq<Input>, events: seq<AppServerEvent>, replies: seq<Outgoing>,
                    read: seq<Input>)
  {
    && h.Connected? && frames == read + h.left
    && h.events == events + FromServerAll(WireEvents(read))
    && h.replies == replies + Refusals(FramesOf(read))
  }

  lemma FollowsAtResponse(input: Input, rest: seq<Input>, events: seq<AppServerEvent>, replies: seq<Outgoing>)
    requires input.FromStream? && IsInitializeResponse(input.frame)
    ensures Follows(Connected(events, replies, rest), [input] + rest, events, replies, [input])
  {
    WireOfCons(input, []);
    assert [input] + [] == [input];
    assert WireEvents([input]) == [] && Refusals(FramesOf([input])) == [];
    assert events + FromServerAll([]) == events && replies + [] == replies;
  }

  lemma FollowsOneMore(h: Handshake, input: Input, rest: seq<Input>, events: seq<AppServerEvent>,
                       replies: seq<Outgoing>, more: seq<Input>)
    requires input.FromStream?
    requires Follows(h, rest, events + FromServerAll(EventOf(input.frame)), replies + RefusalOf(input.frame), more)
    ensures Follows(h, [input] + rest, events, replies, [input] + more)
  {
    WireOfCons(input, more);
    JoinEvents(events, EventOf(input.frame), WireEvents(more), []);
    JoinOutgoing(replies, RefusalOf(input.frame), Refusals(FramesOf(more)));
    assert [input] + (more + h.left) == [input] + more + h.left;
  }

  /** A successful handshake collects, in wire order, the known notifications and requests of the frames
      it read, and refuses the unknown requests among them. */
  lemma {:induction false} HandshakeFollowsTheWire(frames: seq<Input>, events: seq<AppServerEvent>,
                                                   replies: seq<Outgoing>)
    returns (read: seq<Input>)
    requires forall i | 0 <= i < |frames| :: frames[i].FromStream?
    requires Await(frames, events, replies).Connected?
    ensures Follows(Await(frames, events, replies), frames, events, replies, read)
    decreases |frames|
  {
    var input, rest := frames[0], frames[1..];
    var h := Await(frames, events, replies);
    assert frames == [input] + rest;
    AwaitStep(frames, events, replies);
    if IsInitializeResponse(input.frame) {
      FollowsAtResponse(input, rest, events, replies);
      read := [input];
    } else {
      var more := HandshakeFollowsTheWire(rest, events + FromServerAll(EventOf(input.frame)),
                                          replies + RefusalOf(input.frame));
      FollowsOneMore(h, input, rest, events, replies, more);
      read := [input] + more;
    }
  }

  // ---------------------------------------------------------------- the caller's view

  /** The client's event queue: the handshake's events first, then the worker's channel. */
  class RemoteAppServerClient {
    var pendingEvents: seq<AppServerEvent>
    var received: nat
    ghost const handshakeEvents: seq<AppServerEvent>
    ghost var seen: seq<AppServerEvent>

    ghost predicate Valid(delivered: seq<AppServerEvent>)
      reads this
    {
      && received <= |delivered|
      && (received > 0 ==> pendingEvents == [])
      && seen + pendingEvents == handshakeEvents + delivered[..received]
    }

    constructor (handshakeEvents: seq<AppServerEvent>)
      ensures Valid([]) && seen == [] && this.handshakeEvents == handshakeEvents
    {
      pendingEvents, received, seen := handshakeEvents, 0, [];
      this.handshakeEvents := handshakeEvents;
    }

    /** What was read so far stays read when the channel grows. */
    lemma StaysValid(delivered: seq<AppServerEvent>, more: seq<AppServerEvent>)
      requires Valid(delivered) && delivered <= more
      ensures Valid(more)
    {
      assert delivered[..received] == more[..received];
    }

    /** `next_event`; nothing is returned when the channel holds no further event. */
    method NextEvent(delivered: seq<AppServerEvent>) returns (e: Option<AppServerEvent>)
      requires Valid(delivered)
      modifies this
      ensures Valid(delivered)
      ensures seen == old(seen) + (if e.Some? then [e.value] else [])
      ensures e.None? ==> seen == handshakeEvents + delivered
      ensures seen <= handshakeEvents + delivered
    {
      if pendingEvents != [] {
        e := Some(pendingEvents[0]);
        assert seen + pendingEvents == seen + [pendingEvents[0]] + pendingEvents[1..];
        seen := seen + [pendingEvents[0]];
        pendingEvents := pendingEvents[1..];
      } else if received < |delivered| {
        e := Some(delivered[received]);
        assert delivered[..received + 1] == delivered[..received] + [delivered[received]];
        assert seen + [] == seen;
        seen := seen + [delivered[received]];
        received := received + 1;
      } else {
        e := None;
        assert delivered[..received] == delivered;
      }
      assert delivered == delivered[..received] + delivered[received..];
      assert handshakeEvents + delivered == (handshakeEvents + delivered[..received]) + delivered[received..];
      assert (seen + pendingEvents) + delivered[received..] == seen + (pendingEvents + delivered[received..]);
    }
  }

  function FrameEvents(frames: seq<Frame>): seq<ServerEvent> {
    if frames == [] then [] else EventOf(frames[0]) + FrameEvents(frames[1..])
  }

  lemma {:induction false} WireByFrames(inputs: seq<Input>)
    ensures WireEvents(inputs) == FrameEvents(FramesOf(inputs))
    decreases |inputs|
  {
    if inputs != [] {
      WireByFrames(inputs[1..]);
      if inputs[0].FromStream? {
        assert FramesOf(inputs)[1..] == FramesOf(inputs[1..]);
      } else {
        assert FramesOf(inputs) == FramesOf(inputs[1..]);
      }
    }
  }

  lemma {:induction false} FrameEventsAppend(a: seq<Frame>, b: seq<Frame>)
    ensures FrameEvents(a + b) == FrameEvents(a) + FrameEvents(b)
    decreases |a|
  {
    if a == [] {
      assert a + b == b;
    } else {
      assert (a + b)[1..] == a[1..] + b;
      FrameEventsAppend(a[1..], b);
      assert EventOf(a[0]) + (FrameEvents(a[1..]) + FrameEvents(b))
          == EventOf(a[0]) + FrameEvents(a[1..]) + FrameEvents(b);
    }
  }

  lemma {:induction false} FramesAppend(a: seq<Input>, b: seq<Input>)
    ensures FramesOf(a + b) == FramesOf(a) + FramesOf(b)
    decreases |a|
  {
    if a == [] {
      assert a + b == b;
    } else {
      assert (a + b)[1..] == a[1..] + b && (a + b)[0] == a[0];
      FramesAppend(a[1..], b);
      JoinFrames(if a[0].FromStream? then [a[0].frame] else [], FramesOf(a[1..]), FramesOf(b));
    }
  }

  lemma JoinFrames(a: seq<Frame>, b: seq<Frame>, c: seq<Frame>)
    ensures a + (b + c) == a + b + c
  {
  }

  /** The worker's frames continue those of the handshake, so their events do too. */
  lemma {:induction false} WireContinues(read: seq<Input>, left: seq<Input>, inputs: seq<Input>)
    requires FramesOf(inputs) <= FramesOf(left)
    ensures WireEvents(read) + WireEvents(inputs) <= WireEvents(read + left)
  {
    var rest := FramesOf(left)[|FramesOf(inputs)|..];
    WireByFrames(read);
    WireByFrames(inputs);
    WireByFrames(read + left);
    FramesAppend(read, left);
    FrameEventsAppend(FramesOf(read), FramesOf(left));
    assert FramesOf(left) == FramesOf(inputs) + rest;
    FrameEventsAppend(FramesOf(inputs), rest);
  }

  lemma FramesPrefix(a: seq<Input>, b: seq<Input>)
    requires a <= b
    ensures FramesOf(a) <= FramesOf(b)
  {
    FramesAppend(a, b[|a|..]);
    assert b == a + b[|a|..];
  }

  /** The frames the handshake read. */
  function HandshakeFrames(frames: seq<Input>): seq<Input>
    requires forall i | 0 <= i < |frames| :: frames[i].FromStream?
    requires InitializeConnection(frames, true, true).Connected?
  {
    frames[..|frames| - |InitializeConnection(frames, true, true).left|]
  }

  lemma ReceiverStep(s: Worker, input: Input)
    requires s.running
    ensures Step(s, input).receiverOpen <==> s.receiverOpen && input != ReceiverDropped
  {
  }

  lemma {:induction false} ReceiverStaysOpen(s: Worker, inputs: seq<Input>)
    requires Run(s, inputs).running
    ensures Run(s, inputs).receiverOpen <==> s.receiverOpen && ReceiverDropped !in inputs
    decreases |inputs|
  {
    if inputs != [] {
      StoppedStays(s, inputs);
      ReceiverStep(s, inputs[0]);
      ReceiverStaysOpen(Step(s, inputs[0]), inputs[1..]);
      assert inputs == [inputs[0]] + inputs[1..];
    }
  }

  /** Whether a request's id is pending after these inputs. */
  predicate TakenAfter(before: seq<Input>, input: Input) {
    input.FromCaller? && input.command.SendRequest? && TrackAll(None, before, input.command.id).Some?
  }

  /** An input that ends a worker that has handled these inputs, read off the inputs alone. */
  predicate EndsAfter(before: seq<Input>, input: Input) {
    Ends(input, TakenAfter(before, input), ReceiverDropped !in before)
  }

  /** The disconnect event after these inputs, read off the inputs alone. */
  function FinalWord(before: seq<Input>, rest: seq<Input>): seq<AppServerEvent> {
    if rest != [] && ReceiverDropped !in before && Loses(rest[0], TakenAfter(before, rest[0]))
    then [Disconnected(LossMessage(rest[0]))] else []
  }

  lemma ReadOffInputs(before: seq<Input>, input: Input)
    requires Run(Idle, before).running
    ensures IsTaken(Run(Idle, before), input) == TakenAfter(before, input)
    ensures Run(Idle, before).receiverOpen == (ReceiverDropped !in before)
  {
    ReceiverStaysOpen(Idle, before);
    if input.FromCaller? && input.command.SendRequest? {
      PendingIsAcceptedUnanswered(Idle, before, input.command.id);
    }
  }

  /** The worker goes on after an input exactly when the input is none of those that end it, and the kept inputs
      are those up to the first that does. */
  lemma KeptUntilTheEnd(inputs: seq<Input>, i: nat)
    requires i < |inputs| && Run(Idle, inputs[..i]).running
    ensures i < |Kept(Idle, inputs)| <==> !EndsAfter(inputs[..i], inputs[i])
  {
    KeptIffRunning(Idle, inputs, i + 1);
    RunSnoc(Idle, inputs[..i], inputs[i]);
    assert inputs[..i + 1] == inputs[..i] + [inputs[i]];
    ReadOffInputs(inputs[..i], inputs[i]);
    StepDelivers(Run(Idle, inputs[..i]), inputs[i]);
  }

  lemma LastWordIsFinal(inputs: seq<Input>)
    ensures var kept := Kept(Idle, inputs);
            kept <= inputs && LastWord(Run(Idle, kept), inputs[|kept|..]) == FinalWord(kept, inputs[|kept|..])
  {
    var kept := Kept(Idle, inputs);
    KeptIffRunning(Idle, inputs, 0);
    KeptIffRunning(Idle, inputs, |kept|);
    assert inputs[..|kept|] == kept;
    if |kept| < |inputs| {
      ReadOffInputs(kept, inputs[|kept|]);
    }
  }

  /** Everything a caller can read after a successful handshake and any run of the worker on the frames
      that follow it: exactly the known notifications and requests, in wire order from the first frame on, of
      the handshake and of the inputs before the one that stopped the worker, and then a disconnect event
      exactly when that one lost the connection before the receiver was dropped. */
  lemma CallerSeesTheWire(frames: seq<Input>, inputs: seq<Input>) returns (m: nat)
    requires forall i | 0 <= i < |frames| :: frames[i].FromStream?
    requires InitializeConnection(frames, true, true).Connected?
    requires FramesOf(inputs) <= FramesOf(InitializeConnection(frames, true, true).left)
    ensures m == |WireEvents(HandshakeFrames(frames))| + |WireEvents(Kept(Idle, inputs))| <= |WireEvents(frames)|
    ensures Kept(Idle, inputs) <= inputs
    ensures InitializeConnection(frames, true, true).events + Run(Idle, inputs).events
         == FromServerAll(WireEvents(frames)[..m]) + FinalWord(Kept(Idle, inputs), inputs[|Kept(Idle, inputs)|..])
  {
    var read := HandshakeFollowsTheWire(frames, [], []);
    var left := InitializeConnection(frames, true, true).left;
    assert frames[..|frames| - |left|] == read;
    EventsFollowTheWire(Idle, inputs);
    LastWordIsFinal(inputs);
    var kept := Kept(Idle, inputs);
    FramesPrefix(kept, inputs);
    JoinTwo(FromServerAll(WireEvents(read)), WireEvents(read), WireEvents(kept), FinalWord(kept, inputs[|kept|..]));
    WireContinues(read, left, kept);
    m := |WireEvents(read)| + |WireEvents(kept)|;
    assert WireEvents(frames)[..m] == WireEvents(read) + WireEvents(kept);
  }

  lemma JoinTwo(first: seq<AppServerEvent>, a: seq<ServerEvent>, b: seq<ServerEvent>, tail: seq<AppServerEvent>)
    requires first == FromServerAll(a)
    ensures ([] + first) + ([] + FromServerAll(b) + tail) == FromServerAll(a + b) + tail
  {
    assert FromServerAll(a + b) == FromServerAll(a) + FromServerAll(b);
  }

  // ---------------------------------------------------------------- the caller and the worker together

  /** The worker handles an input, or the caller asks for the next event. */
  datatype Move = WorkerStep(input: Input) | CallerReads

  function InputsOf(moves: seq<Move>): seq<Input> {
    if moves == [] then []
    else
      var last := moves[|moves| - 1];
      InputsOf(moves[..|moves| - 1]) + if last.WorkerStep? then [last.input] else []
  }

  lemma {:induction false} InputsOfPrefix(moves: seq<Move>, i: nat)
    requires i <= |moves|
    ensures InputsOf(moves[..i]) <= InputsOf(moves)
    decreases |moves| - i
  {
    if i == |moves| {
      assert moves[..i] == moves;
    } else {
      assert moves[..i + 1][..i] == moves[..i];
      InputsOfPrefix(moves, i + 1);
    }
  }

  lemma RunSnoc(s: Worker, inputs: seq<Input>, input: Input)
    ensures Run(s, inputs + [input]) == Step(Run(s, inputs), input)
  {
    RunAppend(s, inputs, [input]);
    var last := Step(Run(s, inputs), input);
    assert [input][1..] == [] && Run(last, []) == last;
  }

  lemma EventsGrow(s: Worker, input: Input)
    ensures s.events <= Step(s, input).events
  {
    if s.running {
      StepDelivers(s, input);
    }
  }

  lemma PendingStaysInjective(inputs: seq<Input>)
    requires DistinctWaiters(inputs)
    ensures Injective(Run(Idle, inputs).pending)
  {
    assert NothingPending.Values == {};
    AnswersOverRun(Idle, {}, inputs);
  }

  /** One more input handled by the worker of a run. */
  lemma WorkerMoves(inputs: seq<Input>, input: Input)
    ensures Run(Idle, inputs + [input]) == Step(Run(Idle, inputs), input)
    ensures Run(Idle, inputs).events <= Run(Idle, inputs + [input]).events
  {
    RunSnoc(Idle, inputs, input);
    EventsGrow(Run(Idle, inputs), input);
  }

  /** What the reads of a schedule return, in order: each takes the next event that has been delivered by then,
      the handshake's first. */
  function ReadSoFar(handshake: seq<AppServerEvent>, moves: seq<Move>): seq<AppServerEvent> {
    if moves == [] then []
    else
      var front := moves[..|moves| - 1];
      var got := ReadSoFar(handshake, front);
      var available := handshake + Run(Idle, InputsOf(front)).events;
      if moves[|moves| - 1].CallerReads? && |got| < |available| then got + [available[|got|]] else got
  }

  /** What one move adds to the inputs and to what was read. */
  lemma OneMoreMove(handshake: seq<AppServerEvent>, moves: seq<Move>, move: Move)
    ensures InputsOf(moves + [move]) == InputsOf(moves) + if move.WorkerStep? then [move.input] else []
    ensures var got, available := ReadSoFar(handshake, moves), handshake + Run(Idle, InputsOf(moves)).events;
            ReadSoFar(handshake, moves + [move])
            == if move.CallerReads? && |got| < |available| then got + [available[|got|]] else got
  {
    assert (moves + [move])[..|moves|] == moves;
  }

  lemma WorkerMayMove(moves: seq<Move>, i: nat)
    requires i <= |moves| && DistinctWaiters(InputsOf(moves))
    ensures Injective(Run(Idle, InputsOf(moves[..i])).pending)
  {
    InputsOfPrefix(moves, i);
    PendingStaysInjective(InputsOf(moves[..i]));
  }

  /** The worker and the caller after some moves. */
  ghost predicate Together(task: RemoteWorkerTask, client: RemoteAppServerClient, handshake: seq<AppServerEvent>,
                           moves: seq<Move>)
    reads task, client
  {
    && task.View() == Run(Idle, InputsOf(moves))
    && client.Valid(task.events) && client.handshakeEvents == handshake
    && client.seen == ReadSoFar(handshake, moves) && client.seen <= handshake + task.events
  }

  method WorkerPass(task: RemoteWorkerTask, client: RemoteAppServerClient, ghost handshake: seq<AppServerEvent>,
                    ghost moves: seq<Move>, input: Input)
    requires Together(task, client, handshake, moves) && Injective(task.pending)
    modifies task
    ensures Together(task, client, handshake, moves + [WorkerStep(input)])
  {
    OneMoreMove(handshake, moves, WorkerStep(input));
    WorkerMoves(InputsOf(moves), input);
    ghost var before := task.events;
    task.Handle(input);
    client.StaysValid(before, task.events);
  }

  method CallerRead(task: RemoteWorkerTask, client: RemoteAppServerClient, ghost handshake: seq<AppServerEvent>,
                    ghost moves: seq<Move>) returns (e: Option<AppServerEvent>)
    requires Together(task, client, handshake, moves)
    modifies client
    ensures Together(task, client, handshake, moves + [CallerReads])
    ensures client.seen == old(client.seen) + if e.Some? then [e.value] else []
  {
    OneMoreMove(handshake, moves, CallerReads);
    assert InputsOf(moves) + [] == InputsOf(moves);
    e := client.NextEvent(task.events);
  }

  /** The caller and the worker taking turns: every read returns the next event delivered by then. */
  method TakeTurns(handshake: seq<AppServerEvent>, moves: seq<Move>) returns (seen: seq<AppServerEvent>)
    requires DistinctWaiters(InputsOf(moves))
    ensures seen == ReadSoFar(handshake, moves)
    ensures seen <= handshake + Run(Idle, InputsOf(moves)).events
  {
    var task := new RemoteWorkerTask();
    var client := new RemoteAppServerClient(handshake);
    seen := [];
    for i := 0 to |moves|
      invariant Together(task, client, handshake, moves[..i]) && seen == client.seen
    {
      assert moves[..i + 1] == moves[..i] + [moves[i]];
      match moves[i] {
        case WorkerStep(input) =>
          WorkerMayMove(moves, i);
          WorkerPass(task, client, handshake, moves[..i], input);
        case CallerReads =>
          var e := CallerRead(task, client, handshake, moves[..i]);
          if e.Some? {
            seen := seen + [e.value];
          }
      }
    }
    assert moves[..|moves|] == moves;
  }

  /** A caller whose reads interleave in any way with the worker's passes, after a successful handshake: every
      read returns the next delivered event, and what was read is a prefix of the wire order from the first frame
      on, up to the input that stopped the worker, and of the disconnect event that input calls for. */
  method Converse(frames: seq<Input>, moves: seq<Move>)
    returns (seen: seq<AppServerEvent>, ghost m: nat)
    requires forall i | 0 <= i < |frames| :: frames[i].FromStream?
    requires InitializeConnection(frames, true, true).Connected?
    requires FramesOf(InputsOf(moves)) <= FramesOf(InitializeConnection(frames, true, true).left)
    requires DistinctWaiters(InputsOf(moves))
    ensures seen == ReadSoFar(InitializeConnection(frames, true, true).events, moves)
    ensures m == |WireEvents(HandshakeFrames(frames))| + |WireEvents(Kept(Idle, InputsOf(moves)))|
              <= |WireEvents(frames)|
    ensures Kept(Idle, InputsOf(moves)) <= InputsOf(moves)
    ensures var inputs := InputsOf(moves);
            seen <= FromServerAll(WireEvents(frames)[..m])
                    + FinalWord(Kept(Idle, inputs), inputs[|Kept(Idle, inputs)|..])
  {
    var h := InitializeRemoteConnection(frames, true, true);
    seen := TakeTurns(h.events, moves);
    m := CallerSeesTheWire(frames, InputsOf(moves));
  }
}
