/** The event forwarder of the in-process app-server client: a worker puts runtime events into a bounded
    channel, blocks for the lossless tier, drops the best-effort tier when the channel is full, announces
    drops by lag markers and rejects the server requests it drops.

    The consumer is an arbitrary schedule of receives and an optional close before every channel
    operation. The three theorems at the end hold for every capacity, input sequence and schedule. */
module Forwarder {
  import opened Options

  datatype NotificationKind =
    | TurnCompleted | ThreadSettingsUpdated | ItemCompleted | AgentMessageDelta | PlanDelta
    | ReasoningSummaryTextDelta | ReasoningTextDelta | BestEffort(method_: string)

  datatype ServerRequest = ChatgptAuthTokensRefresh(id: string) | OtherRequest(id: string, params: string)

  /** What the runtime produces; a lag marker may also come from upstream. */
  datatype Event =
    | Lagged(skipped: nat)
    | Notification(kind: NotificationKind, payload: string)
    | Request(request: ServerRequest)

  predicate NotificationRequiresDelivery(kind: NotificationKind) {
    !kind.BestEffort?
  }

  predicate RequiresDelivery(e: Event) {
    match e
    case Notification(kind, _) => NotificationRequiresDelivery(kind)
    case _ => false
  }

  // ---------------------------------------------------------------- the channel

  /** A channel entry: a lag marker made by the worker, or the input with a given position. */
  datatype Item = Marker(skipped: nat) | Forwarded(index: nat, event: Event)

  /** `taken` is what the consumer has received so far. */
  datatype Channel = Channel(capacity: nat, queue: seq<Item>, taken: seq<Item>, closed: bool)

  /** What the consumer does before the worker's next channel operation. */
  datatype Act = Act(receives: nat, close: bool)

  function Min(a: nat, b: nat): nat {
    if a < b then a else b
  }

  function Receive(c: Channel, n: nat): Channel {
    var k := Min(n, |c.queue|);
    c.(queue := c.queue[k..], taken := c.taken + c.queue[..k])
  }

  function Consumed(c: Channel, act: Act): Channel {
    if c.closed then c else Receive(c, act.receives).(closed := act.close)
  }

  predicate IsFull(c: Channel) {
    |c.queue| >= c.capacity
  }

  function Enqueue(c: Channel, item: Item): Channel {
    c.(queue := c.queue + [item])
  }

  /** A blocking send goes on as soon as the consumer has made room; a close ends it. */
  function MakeRoom(c: Channel): Channel {
    if IsFull(c) then Receive(c, |c.queue| + 1 - c.capacity) else c
  }

  // ---------------------------------------------------------------- the worker

  const AUTH_REFRESH_UNSUPPORTED := -32000
  const QUEUE_FULL := -32001

  datatype Rejection = Rejection(index: nat, request: ServerRequest, code: int)

  /** What became of an input: put into the channel, dropped because it was full, refused as an
      unsupported authentication refresh, or abandoned because the consumer was gone. */
  datatype Fate = Queued | Dropped | Refused | Abandoned

  /** `uncounted` is the number of drops the saturated counter could not count. */
  datatype Worker = Worker(channel: Channel, skipped: nat, enabled: bool, rejected: seq<Rejection>,
                           fates: seq<Fate>, uncounted: nat)

  /** A channel holds at least one entry. */
  function EffectiveCapacity(capacity: nat): nat {
    if capacity < 1 then 1 else capacity
  }

  function Init(capacity: nat): Worker {
    Worker(Channel(EffectiveCapacity(capacity), [], [], false), 0, true, [], [], 0)
  }

  function Finish(w: Worker, fate: Fate): Worker {
    w.(fates := w.fates + [fate])
  }

  /** Drops the event: counts it, saturating at `limit`, and rejects it when it is a server request. */
  function Drop(limit: nat, w: Worker, event: Event): Worker {
    var counted := if w.skipped < limit then w.(skipped := w.skipped + 1) else w.(uncounted := w.uncounted + 1);
    var answered := if event.Request?
                    then counted.(rejected := w.rejected + [Rejection(|w.fates|, event.request, QUEUE_FULL)])
                    else counted;
    Finish(answered, Dropped)
  }

  function Disable(w: Worker): Worker {
    Finish(w.(enabled := false), Abandoned)
  }

  /** The lag marker, when one is due. The second component says whether the event is still to be sent. */
  function FlushMarker(limit: nat, w: Worker, event: Event, before: Act): (Worker, bool) {
    if w.skipped == 0 then (w, true)
    else
      var w1 := w.(channel := Consumed(w.channel, before));
      if w1.channel.closed then (Disable(w1), false)
      else if RequiresDelivery(event) then
        (w1.(channel := Enqueue(MakeRoom(w1.channel), Marker(w1.skipped)), skipped := 0), true)
      else if IsFull(w1.channel) then (Drop(limit, w1, event), false)
      else (w1.(channel := Enqueue(w1.channel, Marker(w1.skipped)), skipped := 0), true)
  }

  function SendEvent(limit: nat, w: Worker, event: Event, before: Act): Worker {
    var w1 := w.(channel := Consumed(w.channel, before));
    var item := Forwarded(|w.fates|, event);
    if w1.channel.closed then Disable(w1)
    else if RequiresDelivery(event) then Finish(w1.(channel := Enqueue(MakeRoom(w1.channel), item)), Queued)
    else if IsFull(w1.channel) then Drop(limit, w1, event)
    else Finish(w1.(channel := Enqueue(w1.channel, item)), Queued)
  }

  function Forward(limit: nat, w: Worker, event: Event, before: Act, between: Act): Worker {
    var flushed := FlushMarker(limit, w, event, before);
    if flushed.1 then SendEvent(limit, flushed.0, event, between) else flushed.0
  }

  /** One runtime event, with the consumer's activity before the marker and before the event itself. */
  datatype Input = Input(event: Event, before: Act, between: Act)

  predicate IsAuthRefresh(e: Event) {
    e.Request? && e.request.ChatgptAuthTokensRefresh?
  }

  /** One pass of the worker loop's event arm; a disabled stream reads no more events. */
  function Step(limit: nat, w: Worker, input: Input): Worker {
    if !w.enabled then w
    else if IsAuthRefresh(input.event) then
      Finish(w.(rejected := w.rejected + [Rejection(|w.fates|, input.event.request, AUTH_REFRESH_UNSUPPORTED)]),
             Refused)
    else Forward(limit, w, input.event, input.before, input.between)
  }

  function Run(limit: nat, capacity: nat, inputs: seq<Input>): Worker {
    if inputs == [] then Init(capacity)
    else Step(limit, Run(limit, capacity, inputs[..|inputs| - 1]), inputs[|inputs| - 1])
  }

  // ---------------------------------------------------------------- the worker as an object

  /** The outcome of forwarding one event: the stream goes on, or the consumer is gone. */
  datatype ForwardEventResult = Continue | DisableStream

  /** The worker task's state, updated in place. */
  class InProcessWorker {
    const limit: nat
    const capacity: nat
    var queue: seq<Item>
    var taken: seq<Item>
    var closed: bool
    var skipped: nat
    var enabled: bool
    var rejected: seq<Rejection>
    var handled: nat
    ghost var fates: seq<Fate>
    ghost var uncounted: nat

    ghost predicate Valid()
      reads this
    {
      handled == |fates|
    }

    ghost function View(): Worker
      reads this
    {
      Worker(Channel(capacity, queue, taken, closed), skipped, enabled, rejected, fates, uncounted)
    }

    constructor (limit: nat, channelCapacity: nat)
      ensures Valid() && View() == Init(channelCapacity) && this.limit == limit
    {
      this.limit := limit;
      capacity := EffectiveCapacity(channelCapacity);
      queue, taken, closed, skipped, enabled, rejected := [], [], false, 0, true, [];
      handled, fates, uncounted := 0, [], 0;
    }

    method Consume(act: Act)
      modifies this`queue, this`taken, this`closed
      ensures View() == old(View()).(channel := Consumed(old(View()).channel, act))
    {
      if !closed {
        var k := Min(act.receives, |queue|);
        taken := taken + queue[..k];
        queue := queue[k..];
        closed := act.close;
      }
    }

    /** `send().await`: waits for room; fails when the consumer is gone. */
    method Send(item: Item, before: Act) returns (delivered: bool)
      modifies this`queue, this`taken, this`closed
      ensures var c := Consumed(old(View()).channel, before);
              && delivered == !c.closed
              && View() == old(View()).(channel := if delivered then Enqueue(MakeRoom(c), item) else c)
    {
      Consume(before);
      if closed {
        return false;
      }
      if |queue| >= capacity {
        var k := Min(|queue| + 1 - capacity, |queue|);
        taken := taken + queue[..k];
        queue := queue[k..];
      }
      queue := queue + [item];
      return true;
    }

    /** `try_send`: fails at once when the channel is full or closed. */
    method TrySend(item: Item, before: Act) returns (full: bool, gone: bool)
      modifies this`queue, this`taken, this`closed
      ensures var c := Consumed(old(View()).channel, before);
              && gone == c.closed
              && full == (!c.closed && IsFull(c))
              && View() == old(View()).(channel := if gone || full then c else Enqueue(c, item))
    {
      Consume(before);
      full, gone := !closed && |queue| >= capacity, closed;
      if !full && !gone {
        queue := queue + [item];
      }
    }

    method DropEvent(event: Event)
      requires Valid()
      modifies this`skipped, this`rejected, this`handled, this`fates, this`uncounted
      ensures Valid() && View() == Drop(limit, old(View()), event)
    {
      if skipped < limit {
        skipped := skipped + 1;
      } else {
        uncounted := uncounted + 1;
      }
      if event.Request? {
        rejected := rejected + [Rejection(handled, event.request, QUEUE_FULL)];
      }
      handled, fates := handled + 1, fates + [Dropped];
    }

    /** `forward_in_process_event`; the result says whether the stream goes on. */
    method ForwardInProcessEvent(event: Event, before: Act, between: Act) returns (result: ForwardEventResult)
      requires Valid() && enabled
      modifies this
      ensures Valid()
      ensures View() == Forward(limit, old(View()), event, before, between).(enabled := true)
      ensures result.Continue? == Forward(limit, old(View()), event, before, between).enabled
    {
      if skipped > 0 {
        if RequiresDelivery(event) {
          var delivered := Send(Marker(skipped), before);
          if !delivered {
            handled, fates := handled + 1, fates + [Abandoned];
            return DisableStream;
          }
          skipped := 0;
        } else {
          var full, gone := TrySend(Marker(skipped), before);
          if full {
            DropEvent(event);
            return Continue;
          }
          if gone {
            handled, fates := handled + 1, fates + [Abandoned];
            return DisableStream;
          }
          skipped := 0;
        }
      }
      var item := Forwarded(handled, event);
      if RequiresDelivery(event) {
        var delivered := Send(item, between);
        handled, fates := handled + 1, fates + [if delivered then Queued else Abandoned];
        return if delivered then Continue else DisableStream;
      }
      var full, gone := TrySend(item, between);
      if full {
        DropEvent(event);
        return Continue;
      }
      handled, fates := handled + 1, fates + [if gone then Abandoned else Queued];
      return if gone then DisableStream else Continue;
    }

    /** The event arm of the worker loop. */
    method HandleRuntimeEvent(input: Input)
      requires Valid()
      modifies this
      ensures Valid() && View() == Step(limit, old(View()), input)
    {
      if !enabled {
        return;
      }
      if IsAuthRefresh(input.event) {
        rejected := rejected + [Rejection(handled, input.event.request, AUTH_REFRESH_UNSUPPORTED)];
        handled, fates := handled + 1, fates + [Refused];
        return;
      }
      var result := ForwardInProcessEvent(input.event, input.before, input.between);
      if result.DisableStream? {
        enabled := false;
      }
    }

    /** The worker loop over a whole sequence of runtime events. */
    method ServeEvents(inputs: seq<Input>)
      requires Valid() && View() == Init(capacity)
      modifies this
      ensures Valid() && View() == Run(limit, capacity, inputs)
    {
      for i := 0 to |inputs|
        invariant Valid() && View() == Run(limit, capacity, inputs[..i])
      {
        HandleRuntimeEvent(inputs[i]);
        assert inputs[..i + 1][..i] == inputs[..i];
      }
      assert inputs[..|inputs|] == inputs;
    }
  }

  // ---------------------------------------------------------------- what the consumer can reconstruct

  datatype Slot = Event_(index: nat, event: Event) | Gap

  function Gaps(n: nat): seq<Slot> {
    seq(n, _ => Gap)
  }

  /** A lag marker stands for that many gaps. */
  function Expand(items: seq<Item>): seq<Slot> {
    if items == [] then []
    else
      var last := items[|items| - 1];
      Expand(items[..|items| - 1])
      + (match last case Marker(n) => Gaps(n) case Forwarded(i, e) => [Event_(i, e)])
  }

  /** What one handled input adds to the stream. */
  function Entry(fate: Fate, index: nat, event: Event): seq<Slot> {
    match fate
    case Queued => [Event_(index, event)]
    case Dropped => [Gap]
    case _ => []
  }

  /** The inputs handled so far, the dropped ones replaced by gaps; refused and abandoned ones are not
      part of the stream. */
  function Expected(inputs: seq<Input>, fates: seq<Fate>): seq<Slot>
    requires |fates| <= |inputs|
  {
    if fates == [] then []
    else
      var i := |fates| - 1;
      Expected(inputs, fates[..i]) + Entry(fates[i], i, inputs[i].event)
  }

  /** Everything put into the channel, received or not, and the drops not yet announced. */
  function Accounted(w: Worker): seq<Slot> {
    Expand(Items(w.channel)) + Gaps(w.skipped)
  }

  lemma ExpandPush(items: seq<Item>, item: Item)
    ensures Expand(items + [item])
         == Expand(items) + (match item case Marker(n) => Gaps(n) case Forwarded(i, e) => [Event_(i, e)])
  {
    assert (items + [item])[..|items|] == items;
  }

  // ---------------------------------------------------------------- the channel loses nothing

  function Items(c: Channel): seq<Item> {
    c.taken + c.queue
  }

  lemma ReceiveKeepsItems(c: Channel, n: nat)
    ensures Items(Receive(c, n)) == Items(c)
  {
  }

  lemma ConsumeKeepsItems(c: Channel, act: Act)
    ensures Items(Consumed(c, act)) == Items(c)
  {
    ReceiveKeepsItems(c, act.receives);
  }

  lemma EnqueueAppends(c: Channel, item: Item)
    ensures Items(Enqueue(c, item)) == Items(c) + [item]
    ensures Items(Enqueue(MakeRoom(c), item)) == Items(c) + [item]
  {
    ReceiveKeepsItems(c, if IsFull(c) then |c.queue| + 1 - c.capacity else 0);
    assert forall d: Channel :: d.taken + (d.queue + [item]) == d.taken + d.queue + [item];
  }

  /** Flushing a marker turns announced drops into gaps of the channel and changes nothing else. */
  lemma FlushKeepsAccount(limit: nat, w: Worker, event: Event, before: Act)
    ensures var r := FlushMarker(limit, w, event, before);
            r.1 ==> && Accounted(r.0) == Accounted(w)
                    && r.0 == w.(channel := r.0.channel, skipped := 0)
                    && (Items(r.0.channel) == Items(w.channel)
                        || (w.skipped > 0 && Items(r.0.channel) == Items(w.channel) + [Marker(w.skipped)]))
  {
    ConsumeKeepsItems(w.channel, before);
    if w.skipped > 0 {
      EnqueueAppends(Consumed(w.channel, before), Marker(w.skipped));
      ExpandPush(Items(w.channel), Marker(w.skipped));
    }
  }

  // ---------------------------------------------------------------- accounting

  /** One event's contribution: every worker step accounts for its event, except for a drop that a
      saturated counter cannot count. */
  predicate Accounts(before: Worker, after: Worker, event: Event) {
    && |after.fates| == |before.fates| + 1
    && after.fates[..|before.fates|] == before.fates
    && var entry := Entry(after.fates[|before.fates|], |before.fates|, event);
    && before.uncounted <= after.uncounted
    && |Accounted(after)| + after.uncounted == |Accounted(before)| + before.uncounted + |entry|
    && (after.uncounted == before.uncounted ==> Accounted(after) == Accounted(before) + entry)
  }

  lemma DropAccounts(limit: nat, w: Worker, event: Event)
    ensures Accounts(w, Drop(limit, w, event), event)
  {
    assert Gaps(w.skipped + 1) == Gaps(w.skipped) + [Gap];
  }

  lemma DisableAccounts(w: Worker, event: Event)
    ensures Accounts(w, Disable(w), event)
  {
  }

  /** Steps that leave the account alone may come first. */
  lemma AccountsAfter(w: Worker, w1: Worker, w2: Worker, event: Event)
    requires Accounted(w1) == Accounted(w) && w1.fates == w.fates && w1.uncounted == w.uncounted
    requires Accounts(w1, w2, event)
    ensures Accounts(w, w2, event)
  {
  }

  lemma SendAccounts(limit: nat, w: Worker, event: Event, before: Act)
    requires w.skipped == 0
    ensures Accounts(w, SendEvent(limit, w, event, before), event)
  {
    var w1 := w.(channel := Consumed(w.channel, before));
    var w2 := SendEvent(limit, w, event, before);
    ConsumeKeepsItems(w.channel, before);
    if w1.channel.closed {
      DisableAccounts(w1, event);
    } else if !RequiresDelivery(event) && IsFull(w1.channel) {
      DropAccounts(limit, w1, event);
    } else {
      EnqueueAppends(w1.channel, Forwarded(|w.fates|, event));
      QueuedAccounts(w1, w2, event);
    }
    AccountsAfter(w, w1, w2, event);
  }

  lemma QueuedAccounts(w: Worker, after: Worker, event: Event)
    requires after == Finish(w.(channel := after.channel), Queued) && w.skipped == 0
    requires Items(after.channel) == Items(w.channel) + [Forwarded(|w.fates|, event)]
    ensures Accounts(w, after, event)
  {
    ExpandPush(Items(w.channel), Forwarded(|w.fates|, event));
    assert Gaps(0) == [];
  }

  lemma ForwardAccounts(limit: nat, w: Worker, event: Event, before: Act, between: Act)
    ensures Accounts(w, Forward(limit, w, event, before, between), event)
  {
    var r := FlushMarker(limit, w, event, before);
    if r.1 {
      FlushKeepsAccount(limit, w, event, before);
      SendAccounts(limit, r.0, event, between);
      AccountsAfter(w, r.0, SendEvent(limit, r.0, event, between), event);
    } else {
      var w1 := w.(channel := Consumed(w.channel, before));
      ConsumeKeepsItems(w.channel, before);
      DropAccounts(limit, w1, event);
      DisableAccounts(w1, event);
      AccountsAfter(w, w1, r.0, event);
    }
  }

  lemma StepAccounts(limit: nat, w: Worker, input: Input)
    requires w.enabled
    ensures Accounts(w, Step(limit, w, input), input.event)
  {
    if !IsAuthRefresh(input.event) {
      ForwardAccounts(limit, w, input.event, input.before, input.between);
    }
  }

  lemma ExpectedOfMore(inputs: seq<Input>, more: seq<Input>, fates: seq<Fate>)
    requires |fates| <= |inputs|
    ensures Expected(inputs + more, fates) == Expected(inputs, fates)
  {
  }

  predicate StreamInvariant(w: Worker, inputs: seq<Input>) {
    && |w.fates| <= |inputs|
    && (w.enabled ==> |w.fates| == |inputs|)
    && |Accounted(w)| + w.uncounted == |Expected(inputs, w.fates)|
    && (w.uncounted == 0 ==> Accounted(w) == Expected(inputs, w.fates))
  }

  lemma ExpectedOneMore(w: Worker, after: Worker, front: seq<Input>, input: Input)
    requires |w.fates| == |front| && Accounts(w, after, input.event)
    ensures Expected(front + [input], after.fates)
         == Expected(front, w.fates) + Entry(after.fates[|front|], |front|, input.event)
  {
    ExpectedOfMore(front, [input], w.fates);
    assert after.fates[..|after.fates| - 1] == w.fates;
  }

  lemma StreamStep(w: Worker, after: Worker, front: seq<Input>, input: Input)
    requires StreamInvariant(w, front) && w.enabled && Accounts(w, after, input.event)
    ensures StreamInvariant(after, front + [input])
  {
    ExpectedOneMore(w, after, front, input);
  }

  lemma {:induction false} StreamInvariantHolds(limit: nat, capacity: nat, inputs: seq<Input>)
    ensures StreamInvariant(Run(limit, capacity, inputs), inputs)
    decreases |inputs|
  {
    if inputs != [] {
      var front, input := inputs[..|inputs| - 1], inputs[|inputs| - 1];
      var w := Run(limit, capacity, front);
      StreamInvariantHolds(limit, capacity, front);
      assert inputs == front + [input];
      if w.enabled {
        StepAccounts(limit, w, input);
        StreamStep(w, Step(limit, w, input), front, input);
      } else {
        ExpectedOfMore(front, [input], w.fates);
      }
    }
  }

  /** The account is complete exactly when the saturating counter missed no drop. */
  lemma AccountedIffCounted(limit: nat, capacity: nat, inputs: seq<Input>)
    ensures var w := Run(limit, capacity, inputs);
            && |w.fates| <= |inputs|
            && (Accounted(w) == Expected(inputs, w.fates) <==> w.uncounted == 0)
  {
    StreamInvariantHolds(limit, capacity, inputs);
  }

  // ---------------------------------------------------------------- how long the counter lasts

  /** A drop is missed only when the counter is at its limit and the channel is full. */
  lemma DropLoad(limit: nat, w: Worker, event: Event)
    requires IsFull(w.channel)
    ensures var after := Drop(limit, w, event);
            && after.channel == w.channel && after.skipped <= w.skipped + 1
            && (after.uncounted > w.uncounted ==> limit + w.channel.capacity <= |Items(w.channel)| + w.skipped)
  {
  }

  lemma SendLoad(limit: nat, w: Worker, event: Event, before: Act)
    ensures var after := SendEvent(limit, w, event, before);
            && after.channel.capacity == w.channel.capacity
            && |Items(after.channel)| + after.skipped <= |Items(w.channel)| + w.skipped + 1
            && (after.uncounted > w.uncounted ==> limit + w.channel.capacity <= |Items(w.channel)| + w.skipped)
  {
    var w1 := w.(channel := Consumed(w.channel, before));
    ConsumeKeepsItems(w.channel, before);
    if !w1.channel.closed {
      EnqueueAppends(w1.channel, Forwarded(|w.fates|, event));
      if IsFull(w1.channel) && !RequiresDelivery(event) {
        DropLoad(limit, w1, event);
      }
    }
  }

  lemma FlushLoad(limit: nat, w: Worker, event: Event, before: Act)
    ensures var r := FlushMarker(limit, w, event, before);
            && r.0.channel.capacity == w.channel.capacity
            && |Items(r.0.channel)| + r.0.skipped <= |Items(w.channel)| + w.skipped + (if r.1 then 0 else 1)
            && (r.1 ==> r.0.uncounted == w.uncounted)
            && (r.0.uncounted > w.uncounted ==> limit + w.channel.capacity <= |Items(w.channel)| + w.skipped)
  {
    var w1 := w.(channel := Consumed(w.channel, before));
    ConsumeKeepsItems(w.channel, before);
    if w.skipped > 0 && !w1.channel.closed {
      EnqueueAppends(w1.channel, Marker(w.skipped));
      if IsFull(w1.channel) && !RequiresDelivery(event) {
        DropLoad(limit, w1, event);
      }
    }
  }

  lemma StepLoad(limit: nat, w: Worker, input: Input)
    ensures var after := Step(limit, w, input);
            && after.channel.capacity == w.channel.capacity
            && |Items(after.channel)| + after.skipped <= |Items(w.channel)| + w.skipped + 1
            && (after.uncounted > w.uncounted ==> limit + w.channel.capacity <= |Items(w.channel)| + w.skipped)
  {
    if w.enabled && !IsAuthRefresh(input.event) {
      FlushLoad(limit, w, input.event, input.before);
      SendLoad(limit, FlushMarker(limit, w, input.event, input.before).0, input.event, input.between);
    }
  }

  /** No more entries and pending drops than events read; no drop is missed by a short run. */
  lemma {:induction false} ShortRunsAreCounted(limit: nat, capacity: nat, inputs: seq<Input>)
    ensures var w := Run(limit, capacity, inputs);
            && w.channel.capacity == EffectiveCapacity(capacity)
            && |Items(w.channel)| + w.skipped <= |inputs|
            && (|inputs| <= limit + EffectiveCapacity(capacity) ==> w.uncounted == 0)
    decreases |inputs|
  {
    if inputs != [] {
      var front, input := inputs[..|inputs| - 1], inputs[|inputs| - 1];
      ShortRunsAreCounted(limit, capacity, front);
      StepLoad(limit, Run(limit, capacity, front), input);
    }
  }

  /** A best-effort event that arrives while the consumer does nothing. */
  predicate Unread(input: Input) {
    && !RequiresDelivery(input.event) && !IsAuthRefresh(input.event)
    && input.before == input.between && input.before.receives == 0 && !input.before.close
  }

  function Flood(input: Input, n: nat): seq<Input> {
    seq(n, _ => input)
  }

  predicate Flooded(limit: nat, c: nat, w: Worker, n: nat) {
    && w.enabled && !w.channel.closed && w.channel.capacity == c
    && |w.channel.queue| == Min(n, c)
    && w.skipped == Min(n - Min(n, c), limit)
    && w.uncounted == n - Min(n, c) - w.skipped
  }

  lemma IdleKeepsQueue(c: Channel, act: Act)
    requires !c.closed && act.receives == 0 && !act.close
    ensures var d := Consumed(c, act); !d.closed && d.capacity == c.capacity && |d.queue| == |c.queue|
  {
  }

  /** What a step does to the queue's length and the two counts. */
  predicate Loads(limit: nat, w: Worker, after: Worker, room: bool) {
    && after.enabled == w.enabled && !after.channel.closed && after.channel.capacity == w.channel.capacity
    && |after.channel.queue| == |w.channel.queue| + (if room then 1 else 0)
    && after.skipped == w.skipped + (if !room && w.skipped < limit then 1 else 0)
    && after.uncounted == w.uncounted + (if !room && w.skipped >= limit then 1 else 0)
  }

  lemma SendUnread(limit: nat, w: Worker, input: Input)
    requires Unread(input) && !w.channel.closed
    ensures Loads(limit, w, SendEvent(limit, w, input.event, input.between), !IsFull(w.channel))
  {
    IdleKeepsQueue(w.channel, input.between);
  }

  lemma FlushUnread(limit: nat, w: Worker, input: Input)
    requires Unread(input) && !w.channel.closed && w.skipped > 0 && IsFull(w.channel)
    ensures !FlushMarker(limit, w, input.event, input.before).1
    ensures Loads(limit, w, FlushMarker(limit, w, input.event, input.before).0, false)
  {
    IdleKeepsQueue(w.channel, input.before);
  }

  lemma FloodStep(limit: nat, c: nat, w: Worker, input: Input, n: nat)
    requires Flooded(limit, c, w, n) && Unread(input)
    ensures Flooded(limit, c, Step(limit, w, input), n + 1)
  {
    if w.skipped > 0 {
      FlushUnread(limit, w, input);
    } else {
      SendUnread(limit, w, input);
    }
  }

  lemma {:induction false} FloodFills(limit: nat, capacity: nat, input: Input, n: nat)
    requires Unread(input)
    ensures Flooded(limit, EffectiveCapacity(capacity), Run(limit, capacity, Flood(input, n)), n)
    decreases n
  {
    if n > 0 {
      var front := Flood(input, n - 1);
      FloodFills(limit, capacity, input, n - 1);
      assert Flood(input, n)[..n - 1] == front;
      FloodStep(limit, EffectiveCapacity(capacity), Run(limit, capacity, front), input, n - 1);
    }
  }

  /** Every sequence of that many events, under every schedule, is fully accounted for. */
  ghost predicate AlwaysAccounted(limit: nat, capacity: nat, n: nat) {
    forall inputs: seq<Input> | |inputs| == n ::
      var w := Run(limit, capacity, inputs); |w.fates| <= n && Accounted(w) == Expected(inputs, w.fates)
  }

  lemma FloodBreaks(limit: nat, capacity: nat, input: Input, n: nat)
    requires Unread(input) && n > limit + EffectiveCapacity(capacity)
    ensures !AlwaysAccounted(limit, capacity, n)
  {
    var inputs := Flood(input, n);
    FloodFills(limit, capacity, input, n);
    AccountedIffCounted(limit, capacity, inputs);
    assert |inputs| == n;
  }

  /** Expanding the generated lag markers and the pending count into gaps gives exactly the inputs with the
      dropped ones replaced by gaps, in order, for all input sequences of a length and all consumer schedules,
      if and only if the length is at most the counter's limit plus the channel's capacity. */
  lemma LagMarkersAccountForEveryDrop(limit: nat, capacity: nat, n: nat)
    ensures AlwaysAccounted(limit, capacity, n) <==> n <= limit + EffectiveCapacity(capacity)
  {
    if n <= limit + EffectiveCapacity(capacity) {
      forall inputs: seq<Input> | |inputs| == n
        ensures var w := Run(limit, capacity, inputs); |w.fates| <= n && Accounted(w) == Expected(inputs, w.fates)
      {
        AccountedIffCounted(limit, capacity, inputs);
        ShortRunsAreCounted(limit, capacity, inputs);
      }
    } else {
      var idle := Act(0, false);
      var input := Input(Notification(BestEffort("progress"), ""), idle, idle);
      FloodBreaks(limit, capacity, input, n);
    }
  }

  // ---------------------------------------------------------------- fates

  function CountForwarded(items: seq<Item>, index: nat): nat {
    if items == [] then 0
    else
      var last := items[|items| - 1];
      CountForwarded(items[..|items| - 1], index) + (if last.Forwarded? && last.index == index then 1 else 0)
  }

  function CountRejected(rejected: seq<Rejection>, index: nat): nat {
    if rejected == [] then 0
    else CountRejected(rejected[..|rejected| - 1], index) + (if rejected[|rejected| - 1].index == index then 1 else 0)
  }

  lemma CountForwardedPush(items: seq<Item>, item: Item, index: nat)
    ensures CountForwarded(items + [item], index)
         == CountForwarded(items, index) + (if item.Forwarded? && item.index == index then 1 else 0)
  {
    assert (items + [item])[..|items|] == items;
  }

  lemma CountRejectedPush(rejected: seq<Rejection>, r: Rejection, index: nat)
    ensures CountRejected(rejected + [r], index) == CountRejected(rejected, index) + (if r.index == index then 1 else 0)
  {
    assert (rejected + [r])[..|rejected|] == rejected;
  }

  /** What the fate of an input means: how often it is in the channel's history and how often it was
      rejected. */
  predicate FateHolds(w: Worker, inputs: seq<Input>, i: nat)
    requires |w.fates| <= |inputs| && i < |w.fates|
  {
    var event := inputs[i].event;
    && (w.fates[i] == Refused <==> IsAuthRefresh(event))
    && (w.fates[i] == Dropped ==> !RequiresDelivery(event))
    && (w.fates[i] == Abandoned ==> !w.enabled && i == |w.fates| - 1)
    && CountForwarded(Items(w.channel), i) == (if w.fates[i] == Queued then 1 else 0)
    && CountRejected(w.rejected, i)
       == (if event.Request? && (w.fates[i] == Refused || w.fates[i] == Dropped) then 1 else 0)
  }

  /** One step gives its event a fate and touches no other event's record. */
  ghost predicate Decides(before: Worker, after: Worker, event: Event) {
    var n := |before.fates|;
    && |after.fates| == n + 1
    && after.fates[..n] == before.fates
    && (after.fates[n] == Refused <==> IsAuthRefresh(event))
    && (after.fates[n] == Dropped ==> !RequiresDelivery(event))
    && (after.fates[n] == Abandoned <==> !after.enabled)
    && (forall i: nat :: CountForwarded(Items(after.channel), i)
          == CountForwarded(Items(before.channel), i) + (if i == n && after.fates[n] == Queued then 1 else 0))
    && (forall i: nat :: CountRejected(after.rejected, i)
          == CountRejected(before.rejected, i)
             + (if i == n && event.Request? && (after.fates[n] == Refused || after.fates[n] == Dropped) then 1 else 0))
  }

  lemma DropDecides(limit: nat, w: Worker, event: Event)
    requires w.enabled && !IsAuthRefresh(event) && !RequiresDelivery(event)
    ensures Decides(w, Drop(limit, w, event), event)
  {
    if event.Request? {
      forall i: nat ensures CountRejected(Drop(limit, w, event).rejected, i)
                         == CountRejected(w.rejected, i) + (if i == |w.fates| then 1 else 0) {
        CountRejectedPush(w.rejected, Rejection(|w.fates|, event.request, QUEUE_FULL), i);
      }
    }
  }

  lemma SendDecides(limit: nat, w: Worker, event: Event, before: Act)
    requires w.enabled && !IsAuthRefresh(event)
    ensures Decides(w, SendEvent(limit, w, event, before), event)
  {
    var w1 := w.(channel := Consumed(w.channel, before));
    ConsumeKeepsItems(w.channel, before);
    if !w1.channel.closed && IsFull(w1.channel) && !RequiresDelivery(event) {
      DropDecides(limit, w1, event);
    } else if !w1.channel.closed {
      var item := Forwarded(|w.fates|, event);
      EnqueueAppends(w1.channel, item);
      forall i: nat ensures CountForwarded(Items(w.channel) + [item], i)
                         == CountForwarded(Items(w.channel), i) + (if i == |w.fates| then 1 else 0) {
        CountForwardedPush(Items(w.channel), item, i);
      }
    }
  }

  lemma ForwardDecides(limit: nat, w: Worker, event: Event, before: Act, between: Act)
    requires w.enabled && !IsAuthRefresh(event)
    ensures Decides(w, Forward(limit, w, event, before, between), event)
  {
    var r := FlushMarker(limit, w, event, before);
    if r.1 {
      FlushKeepsAccount(limit, w, event, before);
      SendDecides(limit, r.0, event, between);
      forall i: nat ensures CountForwarded(Items(r.0.channel), i) == CountForwarded(Items(w.channel), i) {
        CountForwardedPush(Items(w.channel), Marker(w.skipped), i);
      }
    } else {
      var w1 := w.(channel := Consumed(w.channel, before));
      ConsumeKeepsItems(w.channel, before);
      if !w1.channel.closed {
        DropDecides(limit, w1, event);
      }
    }
  }

  lemma StepDecides(limit: nat, w: Worker, input: Input)
    requires w.enabled
    ensures Decides(w, Step(limit, w, input), input.event)
  {
    if IsAuthRefresh(input.event) {
      var r := Rejection(|w.fates|, input.event.request, AUTH_REFRESH_UNSUPPORTED);
      forall i: nat ensures CountRejected(w.rejected + [r], i)
                         == CountRejected(w.rejected, i) + (if i == |w.fates| then 1 else 0) {
        CountRejectedPush(w.rejected, r, i);
      }
    } else {
      ForwardDecides(limit, w, input.event, input.before, input.between);
    }
  }

  ghost predicate FateInvariant(w: Worker, inputs: seq<Input>) {
    && |w.fates| <= |inputs|
    && (w.enabled ==> |w.fates| == |inputs|)
    && (forall i: nat | i < |w.fates| :: FateHolds(w, inputs, i))
    && (forall i: nat | i >= |w.fates| :: CountForwarded(Items(w.channel), i) == 0 && CountRejected(w.rejected, i) == 0)
  }

  lemma {:induction false} FateInvariantHolds(limit: nat, capacity: nat, inputs: seq<Input>)
    ensures FateInvariant(Run(limit, capacity, inputs), inputs)
    decreases |inputs|
  {
    if inputs != [] {
      var front, input := inputs[..|inputs| - 1], inputs[|inputs| - 1];
      FateInvariantHolds(limit, capacity, front);
      var w := Run(limit, capacity, front);
      assert inputs == front + [input];
      if w.enabled {
        StepDecides(limit, w, input);
        var after := Step(limit, w, input);
        forall i: nat | i < |after.fates| ensures FateHolds(after, inputs, i) {
          assert i < |w.fates| ==> FateHolds(w, front, i) && after.fates[i] == after.fates[..|w.fates|][i];
        }
      } else {
        forall i: nat | i < |w.fates| ensures FateHolds(w, inputs, i) {
          assert FateHolds(w, front, i);
        }
      }
    }
  }

  /** No event of the lossless tier is ever dropped: while the stream is enabled it is in the channel's
      history exactly once. */
  lemma LosslessTierIsDelivered(limit: nat, capacity: nat, inputs: seq<Input>, i: nat)
    requires i < |inputs| && Run(limit, capacity, inputs).enabled && RequiresDelivery(inputs[i].event)
    ensures CountForwarded(Items(Run(limit, capacity, inputs).channel), i) == 1
  {
    FateInvariantHolds(limit, capacity, inputs);
    assert FateHolds(Run(limit, capacity, inputs), inputs, i);
  }

  /** Up to the step that disables the stream, every server request the worker read is forwarded exactly
      once or rejected exactly once and never both; the one request at which the consumer is found gone
      is neither. */
  lemma RequestsAnsweredOnce(limit: nat, capacity: nat, inputs: seq<Input>, i: nat)
    requires i < |inputs| && inputs[i].event.Request?
    ensures var w := Run(limit, capacity, inputs);
            var answers := CountForwarded(Items(w.channel), i) + CountRejected(w.rejected, i);
            && (i < |w.fates| - 1 || (w.enabled && i == |w.fates| - 1) ==> answers == 1)
            && (i < |w.fates| ==> answers == (if w.fates[i] == Abandoned then 0 else 1))
            && (w.enabled ==> |w.fates| == |inputs|)
  {
    FateInvariantHolds(limit, capacity, inputs);
    var w := Run(limit, capacity, inputs);
    if i < |w.fates| {
      assert FateHolds(w, inputs, i);
    }
  }

  // ---------------------------------------------------------------- what was forwarded and rejected

  /** The error code a rejection carries: unsupported for an authentication refresh, queue full for any other. */
  function RejectionCode(request: ServerRequest): int {
    match request
    case ChatgptAuthTokensRefresh(_) => -32000
    case OtherRequest(_, _) => -32001
  }

  predicate NamesItsRequest(r: Rejection, inputs: seq<Input>) {
    && r.index < |inputs| && inputs[r.index].event == Request(r.request)
    && r.code == RejectionCode(r.request)
  }

  predicate CarriesItsEvent(item: Item, inputs: seq<Input>) {
    item.Forwarded? ==> item.index < |inputs| && item.event == inputs[item.index].event
  }

  predicate Truthful(w: Worker, inputs: seq<Input>) {
    && (forall r <- w.rejected :: NamesItsRequest(r, inputs))
    && (forall item <- Items(w.channel) :: CarriesItsEvent(item, inputs))
  }

  /** A step adds at most one entry for its event and at most one rejection of it. */
  predicate AddsOwn(before: Worker, after: Worker, event: Event) {
    var n := |before.fates|;
    && (after.rejected == before.rejected
        || (event.Request?
            && after.rejected == before.rejected + [Rejection(n, event.request, RejectionCode(event.request))]))
    && (forall item <- Items(after.channel) ::
          item in Items(before.channel) || item.Marker? || item == Forwarded(n, event))
  }

  lemma DropAddsOwn(limit: nat, w: Worker, event: Event)
    requires !IsAuthRefresh(event)
    ensures AddsOwn(w, Drop(limit, w, event), event)
  {
  }

  lemma SendAddsOwn(limit: nat, w: Worker, event: Event, before: Act)
    requires !IsAuthRefresh(event)
    ensures AddsOwn(w, SendEvent(limit, w, event, before), event)
  {
    var w1 := w.(channel := Consumed(w.channel, before));
    ConsumeKeepsItems(w.channel, before);
    EnqueueAppends(w1.channel, Forwarded(|w.fates|, event));
    DropAddsOwn(limit, w1, event);
  }

  lemma FlushAddsOwn(limit: nat, w: Worker, event: Event, before: Act)
    requires !IsAuthRefresh(event)
    ensures var r := FlushMarker(limit, w, event, before);
            AddsOwn(w, r.0, event) && (r.1 ==> r.0.rejected == w.rejected && r.0.fates == w.fates)
  {
    var w1 := w.(channel := Consumed(w.channel, before));
    ConsumeKeepsItems(w.channel, before);
    EnqueueAppends(w1.channel, Marker(w.skipped));
    DropAddsOwn(limit, w1, event);
  }

  lemma StepAddsOwn(limit: nat, w: Worker, input: Input)
    requires w.enabled
    ensures AddsOwn(w, Step(limit, w, input), input.event)
  {
    if !IsAuthRefresh(input.event) {
      FlushAddsOwn(limit, w, input.event, input.before);
      SendAddsOwn(limit, FlushMarker(limit, w, input.event, input.before).0, input.event, input.between);
    }
  }

  lemma TruthfulStep(w: Worker, after: Worker, front: seq<Input>, input: Input)
    requires Truthful(w, front) && |w.fates| == |front| && AddsOwn(w, after, input.event)
    ensures Truthful(after, front + [input])
  {
    var inputs := front + [input];
    forall r <- after.rejected ensures NamesItsRequest(r, inputs) {
      assert r in w.rejected ==> NamesItsRequest(r, front);
    }
    forall item <- Items(after.channel) ensures CarriesItsEvent(item, inputs) {
      assert item in Items(w.channel) ==> CarriesItsEvent(item, front);
    }
  }

  lemma TruthfulStays(w: Worker, front: seq<Input>, input: Input)
    requires Truthful(w, front)
    ensures Truthful(w, front + [input])
  {
    forall r <- w.rejected ensures NamesItsRequest(r, front + [input]) {
      assert NamesItsRequest(r, front);
    }
    forall item <- Items(w.channel) ensures CarriesItsEvent(item, front + [input]) {
      assert CarriesItsEvent(item, front);
    }
  }

  /** Over every run, each rejection is of the server request with its index, under that request's own id and with
      the code for it, and each entry of the channel other than a lag marker carries the event with its index. */
  lemma {:induction false} AnswersAreForTheirRequests(limit: nat, capacity: nat, inputs: seq<Input>)
    ensures Truthful(Run(limit, capacity, inputs), inputs)
    decreases |inputs|
  {
    if inputs != [] {
      var front, input := inputs[..|inputs| - 1], inputs[|inputs| - 1];
      var w := Run(limit, capacity, front);
      AnswersAreForTheirRequests(limit, capacity, front);
      assert inputs == front + [input];
      if w.enabled {
        FateInvariantHolds(limit, capacity, front);
        StepAddsOwn(limit, w, input);
        TruthfulStep(w, Step(limit, w, input), front, input);
      } else {
        TruthfulStays(w, front, input);
      }
    }
  }

  // ---------------------------------------------------------------- when an event is dropped or the stream ends

  /** A step drops its event only beside a full channel and gives up only on a closed one. */
  predicate Justified(before: Worker, after: Worker) {
    var n := |before.fates|;
    && |after.fates| == n + 1
    && (after.fates[n] == Dropped ==> IsFull(after.channel) && !after.channel.closed)
    && (after.fates[n] == Abandoned ==> after.channel.closed)
    && (!after.enabled ==> after.channel.closed)
  }

  lemma SendIsJustified(limit: nat, w: Worker, event: Event, before: Act)
    requires w.enabled
    ensures Justified(w, SendEvent(limit, w, event, before))
  {
  }

  lemma FlushIsJustified(limit: nat, w: Worker, event: Event, before: Act)
    requires w.enabled
    ensures var r := FlushMarker(limit, w, event, before);
            if r.1 then r.0.enabled && r.0.fates == w.fates else Justified(w, r.0)
  {
  }

  lemma StepIsJustified(limit: nat, w: Worker, input: Input)
    requires w.enabled
    ensures Justified(w, Step(limit, w, input))
  {
    if !IsAuthRefresh(input.event) {
      FlushIsJustified(limit, w, input.event, input.before);
      var r := FlushMarker(limit, w, input.event, input.before);
      if r.1 {
        SendIsJustified(limit, r.0, input.event, input.between);
      }
    }
  }

  /** Over every run, an event is dropped only while the channel is full and open, and the stream is disabled
      only because the consumer closed it. */
  lemma {:induction false} LossesAreJustified(limit: nat, capacity: nat, inputs: seq<Input>, i: nat)
    requires i < |inputs| && Run(limit, capacity, inputs[..i]).enabled
    ensures Justified(Run(limit, capacity, inputs[..i]), Run(limit, capacity, inputs[..i + 1]))
  {
    assert inputs[..i + 1][..i] == inputs[..i];
    StepIsJustified(limit, Run(limit, capacity, inputs[..i]), inputs[i]);
  }

  // ---------------------------------------------------------------- the channel is bounded

  /** The channel never holds more than its capacity, and every marker announces between one and `limit` drops. */
  predicate Bounded(limit: nat, w: Worker) {
    && |w.channel.queue| <= w.channel.capacity && 1 <= w.channel.capacity && w.skipped <= limit
    && (forall item <- Items(w.channel) | item.Marker? :: 1 <= item.skipped <= limit)
  }

  lemma DropStaysBounded(limit: nat, w: Worker, event: Event)
    requires Bounded(limit, w)
    ensures Bounded(limit, Drop(limit, w, event)) && Bounded(limit, Disable(w))
  {
  }

  lemma ConsumedStaysBounded(limit: nat, w: Worker, act: Act)
    requires Bounded(limit, w)
    ensures Bounded(limit, w.(channel := Consumed(w.channel, act)))
  {
    ConsumeKeepsItems(w.channel, act);
  }

  lemma EnqueueStaysBounded(limit: nat, w: Worker, item: Item, wait: bool)
    requires Bounded(limit, w) && (wait || !IsFull(w.channel))
    requires item.Marker? ==> 1 <= item.skipped <= limit
    ensures Bounded(limit, w.(channel := Enqueue(if wait then MakeRoom(w.channel) else w.channel, item)))
  {
    EnqueueAppends(w.channel, item);
  }

  lemma SendStaysBounded(limit: nat, w: Worker, event: Event, before: Act)
    requires Bounded(limit, w)
    ensures Bounded(limit, SendEvent(limit, w, event, before))
  {
    var w1 := w.(channel := Consumed(w.channel, before));
    ConsumedStaysBounded(limit, w, before);
    if !w1.channel.closed && (RequiresDelivery(event) || !IsFull(w1.channel)) {
      EnqueueStaysBounded(limit, w1, Forwarded(|w.fates|, event), RequiresDelivery(event));
    } else {
      DropStaysBounded(limit, w1, event);
    }
  }

  lemma FlushStaysBounded(limit: nat, w: Worker, event: Event, before: Act)
    requires Bounded(limit, w)
    ensures Bounded(limit, FlushMarker(limit, w, event, before).0)
  {
    var w1 := w.(channel := Consumed(w.channel, before));
    ConsumedStaysBounded(limit, w, before);
    if w.skipped > 0 && !w1.channel.closed && (RequiresDelivery(event) || !IsFull(w1.channel)) {
      EnqueueStaysBounded(limit, w1, Marker(w1.skipped), RequiresDelivery(event));
    } else {
      DropStaysBounded(limit, w1, event);
    }
  }

  lemma {:induction false} ChannelStaysBounded(limit: nat, capacity: nat, inputs: seq<Input>)
    ensures Bounded(limit, Run(limit, capacity, inputs))
    decreases |inputs|
  {
    if inputs != [] {
      var front, input := inputs[..|inputs| - 1], inputs[|inputs| - 1];
      var w := Run(limit, capacity, front);
      ChannelStaysBounded(limit, capacity, front);
      FlushStaysBounded(limit, w, input.event, input.before);
      SendStaysBounded(limit, FlushMarker(limit, w, input.event, input.before).0, input.event, input.between);
    }
  }
}
