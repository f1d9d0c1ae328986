/** The app-server daemon's lifecycle operations and the updater, as processes that interleave on a
    non-blocking file lock, a settings file, a pid-managed backend and the control socket.

    An event of a run is one atomic action of one process, a failure of one process, or something the
    environment does (a backend crash, a server the daemon does not manage, the lock-free `version`
    command looking at the pid reservation). Every interleaving is a sequence of events. */
module Daemon {
  import opened Options

  type ProcId = nat

  datatype RestartMode = IfVersionChanged | Always
  datatype RestartDecision = NotReady | AlreadyCurrent | RestartNow

  /** Whether the updater restarts a running server, from the mode and the versions it was told. */
  function Decide(mode: RestartMode, serverVersion: Option<string>, managedVersion: Option<string>): RestartDecision {
    match (mode, serverVersion, managedVersion)
    case (IfVersionChanged, None, _) => NotReady
    case (IfVersionChanged, Some(v), Some(m)) => if v == m then AlreadyCurrent else RestartNow
    case _ => RestartNow
  }

  datatype Op =
    | Start
    | Restart
    | Stop
    | SetRemoteControl(enable: bool)
    | Bootstrap(enable: bool)
    | EnsureRemoteControl
    | Update(mode: RestartMode)

  // Where an operation is. `s` is the setting it loaded, `e` the one it is asked for and `managed`
  // whether it saw a managed backend.

  datatype StartPc = StartLoad | StartProbe(s: bool) | StartCheck(s: bool) | StartSpawn(s: bool) | StartWait

  datatype RestartPc =
    | RestartLoad | RestartProbe(s: bool) | RestartManaged(s: bool) | RestartCheck(s: bool)
    | RestartStop(s: bool) | RestartSpawn(s: bool) | RestartWait

  datatype StopPc = StopLoad | StopCheck | StopStop | StopProbe

  datatype SetPc =
    | SetLoad(e: bool) | SetCheck(s: bool, e: bool) | SetProbe(s: bool, e: bool)
    | SetDecide(s: bool, e: bool, managed: bool) | SetSave(e: bool, managed: bool)
    | SetStop(e: bool) | SetSpawn(e: bool) | SetWait

  datatype BootPc =
    | BootProbe(e: bool) | BootManaged(e: bool) | BootSave(e: bool) | BootCheck(e: bool) | BootStop(e: bool)
    | BootSpawn(e: bool) | BootUpdaterCheck | BootUpdaterStop | BootUpdaterStart | BootWait

  datatype EnsurePc = EnsureLoad | EnsureCheck

  datatype UpdatePc =
    | UpdLoad(mode: RestartMode) | UpdCheck(s: bool, mode: RestartMode) | UpdProbe(s: bool, mode: RestartMode)
    | UpdUnmanaged | UpdStop(s: bool) | UpdSpawn(s: bool) | UpdWait

  /** A process waits for the operation lock, is inside its critical section, or is finished. The combined
      command runs a remote-control change and then a start under one lock (`andStart`). */
  datatype Pc =
    | Waiting(op: Op)
    | InStart(start: StartPc)
    | InRestart(restart: RestartPc)
    | InStop(stop: StopPc)
    | InSet(set_: SetPc, andStart: bool)
    | InBoot(boot: BootPc)
    | InEnsure(ensure: EnsurePc)
    | InUpdate(update: UpdatePc)
    | Done
    | Failed

  /** What the processes share: the saved remote-control setting (false when the file is missing), the
      flag the running managed backend was started with, whether the updater runs, whether a server the
      daemon does not manage answers on the socket, and whether a concurrent `version` command is holding
      the pid reservation lock for its own look at it. `spawned` counts the backends started so far. */
  datatype Shared = Shared(setting: bool, backend: Option<bool>, updater: bool, unmanaged: bool, reserved: bool,
                           spawned: nat)

  datatype World = World(shared: Shared, lock: Option<ProcId>, procs: map<ProcId, Pc>)

  const Fresh := World(Shared(false, None, false, false, false, 0), None, map[])

  /** What a server that is up may answer: whether it answers in time, and which version it reports. */
  datatype Reply = Reply(ready: bool, version: string, managedVersion: string)

  datatype Event =
    | Launch(p: ProcId, op: Op)
    | Acquire(p: ProcId)
    | Advance(p: ProcId, reply: Reply)
    | Fail(p: ProcId)
    | BackendCrashes
    | UpdaterDies
    | UnmanagedUp
    | UnmanagedDown
    | VersionLooks
    | VersionDone

  predicate HoldsLock(pc: Pc) {
    !pc.Waiting? && !pc.Done? && !pc.Failed?
  }

  /** `client::probe`: whichever server is up answers, unless it is too slow or its answer is unreadable. */
  predicate Probe(x: Shared, reply: Reply) {
    (x.unmanaged || x.backend.Some?) && reply.ready
  }

  /** `is_starting_or_running`: a missing pid file counts as starting while its reservation is locked. */
  predicate SeesBackend(x: Shared) {
    x.backend.Some? || x.reserved
  }

  function StopBackend(x: Shared): Shared {
    x.(backend := None)
  }

  /** `PidBackend::start`: a backend that is already active is left alone. */
  function SpawnBackend(x: Shared, flag: bool): Shared {
    if x.backend.Some? then x else x.(backend := Some(flag), spawned := x.spawned + 1)
  }

  function First(op: Op): Pc {
    match op
    case Start => InStart(StartLoad)
    case Restart => InRestart(RestartLoad)
    case Stop => InStop(StopLoad)
    case SetRemoteControl(e) => InSet(SetLoad(e), false)
    case Bootstrap(e) => InBoot(BootProbe(e))
    case EnsureRemoteControl => InEnsure(EnsureLoad)
    case Update(mode) => InUpdate(UpdLoad(mode))
  }

  /** The shared state an action leaves and where its operation goes on. */
  datatype Effect = Effect(shared: Shared, pc: Pc)

  function Ready(x: Shared, reply: Reply, next: Pc): Effect {
    Effect(x, if Probe(x, reply) then next else Failed)
  }

  function ActStart(x: Shared, pc: StartPc, reply: Reply): Effect {
    match pc
    case StartLoad => Effect(x, InStart(StartProbe(x.setting)))
    case StartProbe(s) => Effect(x, if Probe(x, reply) then Done else InStart(StartCheck(s)))
    case StartCheck(s) => Effect(x, InStart(if SeesBackend(x) then StartWait else StartSpawn(s)))
    case StartSpawn(s) => Effect(SpawnBackend(x, s), InStart(StartWait))
    case StartWait => Ready(x, reply, Done)
  }

  function ActRestart(x: Shared, pc: RestartPc, reply: Reply): Effect {
    match pc
    case RestartLoad => Effect(x, InRestart(RestartProbe(x.setting)))
    case RestartProbe(s) => Effect(x, InRestart(if Probe(x, reply) then RestartManaged(s) else RestartCheck(s)))
    case RestartManaged(s) => Effect(x, if SeesBackend(x) then InRestart(RestartCheck(s)) else Failed)
    case RestartCheck(s) => Effect(x, InRestart(if SeesBackend(x) then RestartStop(s) else RestartSpawn(s)))
    case RestartStop(s) => Effect(StopBackend(x), InRestart(RestartSpawn(s)))
    case RestartSpawn(s) => Effect(SpawnBackend(x, s), InRestart(RestartWait))
    case RestartWait => Ready(x, reply, Done)
  }

  function ActStop(x: Shared, pc: StopPc, reply: Reply): Effect {
    match pc
    case StopLoad => Effect(x, InStop(StopCheck))
    case StopCheck => Effect(x, InStop(if SeesBackend(x) then StopStop else StopProbe))
    case StopStop => Effect(StopBackend(x), Done)
    case StopProbe => Effect(x, if Probe(x, reply) then Failed else Done)
  }

  function AfterSet(andStart: bool): Pc {
    if andStart then InStart(StartLoad) else Done
  }

  function ActSet(x: Shared, pc: SetPc, k: bool, reply: Reply): Effect {
    match pc
    case SetLoad(e) => Effect(x, InSet(SetCheck(x.setting, e), k))
    case SetCheck(s, e) => Effect(x, InSet(if SeesBackend(x) then SetDecide(s, e, true) else SetProbe(s, e), k))
    case SetProbe(s, e) => Effect(x, if Probe(x, reply) then Failed else InSet(SetDecide(s, e, false), k))
    case SetDecide(s, e, managed) =>
      Effect(x, if s != e then InSet(SetSave(e, managed), k) else if managed then InSet(SetWait, k) else AfterSet(k))
    case SetSave(e, managed) => Effect(x.(setting := e), if managed then InSet(SetStop(e), k) else AfterSet(k))
    case SetStop(e) => Effect(StopBackend(x), InSet(SetSpawn(e), k))
    case SetSpawn(e) => Effect(SpawnBackend(x, e), InSet(SetWait, k))
    case SetWait => Ready(x, reply, AfterSet(k))
  }

  function ActBoot(x: Shared, pc: BootPc, reply: Reply): Effect {
    match pc
    case BootProbe(e) => Effect(x, InBoot(if Probe(x, reply) then BootManaged(e) else BootSave(e)))
    case BootManaged(e) => Effect(x, if SeesBackend(x) then InBoot(BootSave(e)) else Failed)
    case BootSave(e) => Effect(x.(setting := e), InBoot(BootCheck(e)))
    case BootCheck(e) => Effect(x, InBoot(if SeesBackend(x) then BootStop(e) else BootSpawn(e)))
    case BootStop(e) => Effect(StopBackend(x), InBoot(BootSpawn(e)))
    case BootSpawn(e) => Effect(SpawnBackend(x, e), InBoot(BootUpdaterCheck))
    case BootUpdaterCheck => Effect(x, InBoot(if x.updater then BootUpdaterStop else BootUpdaterStart))
    case BootUpdaterStop => Effect(x.(updater := false), InBoot(BootUpdaterStart))
    case BootUpdaterStart => Effect(x.(updater := true), InBoot(BootWait))
    case BootWait => Ready(x, reply, Done)
  }

  function ActEnsure(x: Shared, pc: EnsurePc): Effect {
    match pc
    case EnsureLoad => Effect(x, InEnsure(EnsureCheck))
    case EnsureCheck => Effect(x, if x.updater then InSet(SetLoad(true), true) else InBoot(BootProbe(true)))
  }

  function ActUpdate(x: Shared, pc: UpdatePc, reply: Reply): Effect {
    match pc
    case UpdLoad(mode) => Effect(x, InUpdate(UpdCheck(x.setting, mode)))
    case UpdCheck(s, mode) => Effect(x, InUpdate(if SeesBackend(x) then UpdProbe(s, mode) else UpdUnmanaged))
    case UpdProbe(s, mode) =>
      var up := Probe(x, reply);
      var decision := Decide(mode, if up then Some(reply.version) else None,
                             if up then Some(reply.managedVersion) else None);
      Effect(x, if decision == RestartNow then InUpdate(UpdStop(s)) else Done)
    case UpdUnmanaged => Effect(x, if Probe(x, reply) then Failed else Done)
    case UpdStop(s) => Effect(StopBackend(x), InUpdate(UpdSpawn(s)))
    case UpdSpawn(s) => Effect(SpawnBackend(x, s), InUpdate(UpdWait))
    case UpdWait => Ready(x, reply, Done)
  }

  predicate StopsBackend(pc: Pc) {
    match pc
    case InRestart(q) => q.RestartStop?
    case InStop(q) => q.StopStop?
    case InSet(q, _) => q.SetStop?
    case InBoot(q) => q.BootStop?
    case InUpdate(q) => q.UpdStop?
    case _ => false
  }

  predicate StartsBackend(pc: Pc) {
    match pc
    case InStart(q) => q.StartSpawn?
    case InRestart(q) => q.RestartSpawn?
    case InSet(q, _) => q.SetSpawn?
    case InBoot(q) => q.BootSpawn?
    case InUpdate(q) => q.UpdSpawn?
    case _ => false
  }

  /** While another command holds the pid reservation lock, starting a backend waits for it. Stopping one
      terminates it, but waits before it clears the pid file and goes on. */
  function WhileReserved(x: Shared, pc: Pc): Effect {
    Effect(if StopsBackend(pc) then StopBackend(x) else x, pc)
  }

  /** The next action of the lock holder. */
  function Act(x: Shared, pc: Pc, reply: Reply): Effect {
    if x.reserved && (StopsBackend(pc) || StartsBackend(pc)) then WhileReserved(x, pc)
    else match pc
      case InStart(q) => ActStart(x, q, reply)
      case InRestart(q) => ActRestart(x, q, reply)
      case InStop(q) => ActStop(x, q, reply)
      case InSet(q, k) => ActSet(x, q, k, reply)
      case InBoot(q) => ActBoot(x, q, reply)
      case InEnsure(q) => ActEnsure(x, q)
      case InUpdate(q) => ActUpdate(x, q, reply)
      case _ => Effect(x, pc)
  }

  /** Puts the lock holder at a program point; finishing or failing gives up the lock. */
  function Place(w: World, p: ProcId, pc: Pc): World {
    w.(procs := w.procs[p := pc], lock := if HoldsLock(pc) then w.lock else None)
  }

  predicate Running(w: World, p: ProcId) {
    p in w.procs && HoldsLock(w.procs[p])
  }

  function Environment(x: Shared, event: Event): Shared {
    match event
    case BackendCrashes => StopBackend(x)
    case UpdaterDies => x.(updater := false)
    case UnmanagedUp => x.(unmanaged := true)
    case UnmanagedDown => x.(unmanaged := false)
    case VersionLooks => x.(reserved := true)
    case VersionDone => x.(reserved := false)
    case _ => x
  }

  function Next(w: World, event: Event): World {
    match event
    case Launch(p, op) =>
      if p in w.procs && !w.procs[p].Done? && !w.procs[p].Failed? then w else w.(procs := w.procs[p := Waiting(op)])
    case Acquire(p) =>
      if p in w.procs && w.procs[p].Waiting? && w.lock.None?
      then w.(lock := Some(p), procs := w.procs[p := First(w.procs[p].op)]) else w
    case Advance(p, reply) =>
      if Running(w, p) then
        var effect := Act(w.shared, w.procs[p], reply);
        Place(w.(shared := effect.shared), p, effect.pc)
      else w
    case Fail(p) =>
      if Running(w, p) then Place(w, p, Failed)
      else if p in w.procs && w.procs[p].Waiting? then w.(procs := w.procs[p := Failed])
      else w
    case _ => w.(shared := Environment(w.shared, event))
  }

  function Run(w: World, events: seq<Event>): World
    decreases |events|
  {
    if events == [] then w else Run(Next(w, events[0]), events[1..])
  }

  // ---------------------------------------------------------------- the setting and the running backend

  /** A running managed backend was started with the saved setting. */
  predicate Consistent(x: Shared) {
    x.backend.Some? ==> x.backend.value == x.setting
  }

  /** Between saving a setting and stopping the backend that was started with the old one. */
  predicate InWindow(pc: Pc) {
    (pc.InSet? && pc.set_.SetStop?) || (pc.InBoot? && (pc.boot.BootCheck? || pc.boot.BootStop?))
  }

  /** What the lock holder relies on: the setting it loaded or saved is the saved one, and there is no
      backend where it is about to spawn one or where it saw none. */
  predicate Relies(x: Shared, pc: Pc) {
    match pc
    case InStart(StartProbe(s)) => s == x.setting
    case InStart(StartCheck(s)) => s == x.setting
    case InStart(StartSpawn(s)) => s == x.setting && x.backend.None?
    case InRestart(q) =>
      (q.RestartLoad? || q.RestartWait? || q.s == x.setting) && (q.RestartSpawn? ==> x.backend.None?)
    case InSet(SetProbe(_, _), _) => x.backend.None?
    case InSet(SetDecide(_, _, managed), _) => managed || x.backend.None?
    case InSet(SetSave(_, managed), _) => managed || x.backend.None?
    case InSet(SetStop(e), _) => e == x.setting
    case InSet(SetSpawn(e), _) => e == x.setting && x.backend.None?
    case InBoot(BootCheck(e)) => e == x.setting
    case InBoot(BootStop(e)) => e == x.setting
    case InBoot(BootSpawn(e)) => e == x.setting && x.backend.None?
    case InUpdate(UpdCheck(s, _)) => s == x.setting
    case InUpdate(UpdProbe(s, _)) => s == x.setting
    case InUpdate(UpdStop(s)) => s == x.setting
    case InUpdate(UpdSpawn(s)) => s == x.setting && x.backend.None?
    case _ => true
  }

  predicate Sound(x: Shared, pc: Pc) {
    Relies(x, pc) && (InWindow(pc) || Consistent(x))
  }

  /** The operation lock is held by exactly the process inside its critical section. */
  ghost predicate Exclusive(w: World) {
    && (forall p | p in w.procs && HoldsLock(w.procs[p]) :: w.lock == Some(p))
    && (w.lock.Some? ==> w.lock.value in w.procs && HoldsLock(w.procs[w.lock.value]))
  }

  ghost predicate Invariant(w: World) {
    && Exclusive(w)
    && (w.lock.Some? ==> Sound(w.shared, w.procs[w.lock.value]))
    && (w.lock.None? ==> Consistent(w.shared))
  }

  /** A process fails while the running backend has the other flag than the saved one. */
  predicate BadFailure(w: World, event: Event) {
    event.Fail? && Running(w, event.p) && w.shared.backend == Some(!w.shared.setting)
  }

  predicate CleanRun(w: World, events: seq<Event>)
    decreases |events|
  {
    events == [] || (!BadFailure(w, events[0]) && CleanRun(Next(w, events[0]), events[1..]))
  }

  /** At every point of the run at which the lock is free, a running managed backend has the saved setting. */
  predicate AlwaysConsistent(w: World, events: seq<Event>)
    decreases |events|
  {
    && (w.lock.None? ==> Consistent(w.shared))
    && (events == [] || AlwaysConsistent(Next(w, events[0]), events[1..]))
  }

  lemma StartIsSound(x: Shared, q: StartPc, reply: Reply)
    requires Sound(x, InStart(q))
    ensures Sound(ActStart(x, q, reply).shared, ActStart(x, q, reply).pc)
  {
  }

  lemma RestartIsSound(x: Shared, q: RestartPc, reply: Reply)
    requires Sound(x, InRestart(q))
    ensures Sound(ActRestart(x, q, reply).shared, ActRestart(x, q, reply).pc)
  {
  }

  lemma SetIsSound(x: Shared, q: SetPc, k: bool, reply: Reply)
    requires Sound(x, InSet(q, k))
    ensures Sound(ActSet(x, q, k, reply).shared, ActSet(x, q, k, reply).pc)
  {
  }

  lemma BootIsSound(x: Shared, q: BootPc, reply: Reply)
    requires Sound(x, InBoot(q))
    ensures Sound(ActBoot(x, q, reply).shared, ActBoot(x, q, reply).pc)
  {
  }

  lemma UpdateIsSound(x: Shared, q: UpdatePc, reply: Reply)
    requires Sound(x, InUpdate(q))
    ensures Sound(ActUpdate(x, q, reply).shared, ActUpdate(x, q, reply).pc)
  {
  }

  /** The lock holder's action keeps what it relies on. */
  lemma ActIsSound(x: Shared, pc: Pc, reply: Reply)
    requires Sound(x, pc)
    ensures Sound(Act(x, pc, reply).shared, Act(x, pc, reply).pc)
  {
    match pc
    case InStart(q) => StartIsSound(x, q, reply);
    case InRestart(q) => RestartIsSound(x, q, reply);
    case InSet(q, k) => SetIsSound(x, q, k, reply);
    case InBoot(q) => BootIsSound(x, q, reply);
    case InUpdate(q) => UpdateIsSound(x, q, reply);
    case _ =>
  }

  lemma EnvironmentIsSound(x: Shared, pc: Pc, event: Event)
    requires Sound(x, pc)
    ensures Sound(Environment(x, event), pc)
  {
  }

  lemma NextKeeps(w: World, event: Event)
    requires Invariant(w) && !BadFailure(w, event)
    ensures Invariant(Next(w, event))
  {
    match event
    case Advance(p, reply) => if Running(w, p) { ActIsSound(w.shared, w.procs[p], reply); }
    case Launch(_, _) =>
    case Acquire(_) =>
    case Fail(_) =>
    case _ => if w.lock.Some? { EnvironmentIsSound(w.shared, w.procs[w.lock.value], event); }
  }

  lemma {:induction false} ConsistentIffClean(w: World, events: seq<Event>)
    requires Invariant(w)
    ensures AlwaysConsistent(w, events) <==> CleanRun(w, events)
    ensures CleanRun(w, events) ==> Invariant(Run(w, events))
    decreases |events|
  {
    if events != [] {
      var next := Next(w, events[0]);
      if BadFailure(w, events[0]) {
        assert next.lock.None? && !Consistent(next.shared);
      } else {
        NextKeeps(w, events[0]);
        ConsistentIffClean(next, events[1..]);
      }
    }
  }

  /** Under any interleaving of the operations, the updater, crashes and failures: whenever the lock is free a
      running managed backend has the saved setting, if and only if no process fails while the backend that
      runs was started with the other setting; and then at most one process is ever in its critical section. */
  lemma BackendMatchesSetting(events: seq<Event>)
    ensures AlwaysConsistent(Fresh, events) <==> CleanRun(Fresh, events)
    ensures CleanRun(Fresh, events) ==> Invariant(Run(Fresh, events))
  {
    ConsistentIffClean(Fresh, events);
  }

  // ---------------------------------------------------------------- runs of one operation

  lemma {:induction false} RunAppend(w: World, a: seq<Event>, b: seq<Event>)
    ensures Run(w, a + b) == Run(Run(w, a), b)
    decreases |a|
  {
    if a == [] {
      assert a + b == b;
    } else {
      assert (a + b)[1..] == a[1..] + b;
      RunAppend(Next(w, a[0]), a[1..], b);
    }
  }

  /** The world in which an operation has just taken a free lock. */
  function Begun(w: World, p: ProcId, op: Op): World {
    w.(lock := Some(p), procs := w.procs[p := First(op)])
  }

  function Opening(p: ProcId, op: Op): seq<Event> {
    [Launch(p, op), Acquire(p)]
  }

  lemma Begin(w: World, p: ProcId, op: Op)
    requires w.lock.None? && p !in w.procs
    ensures Run(w, Opening(p, op)) == Begun(w, p, op)
  {
    var launched := Next(w, Launch(p, op));
    var begun := Next(launched, Acquire(p));
    assert begun == Begun(w, p, op);
    assert Opening(p, op)[1..] == [Acquire(p)] && [Acquire(p)][1..] == [];
    assert Run(begun, []) == begun;
    assert Run(launched, [Acquire(p)]) == begun;
  }

  /** Actions of one process with anything the environment does in between. */
  predicate Alone(events: seq<Event>, p: ProcId) {
    forall i | 0 <= i < |events| ::
      && !events[i].Launch? && !events[i].Acquire? && !events[i].Fail?
      && (events[i].Advance? ==> events[i].p == p)
  }

  /** The process holds the lock exactly while it is in its critical section. */
  predicate Holding(w: World, p: ProcId) {
    p in w.procs && !w.procs[p].Waiting? && w.lock == if HoldsLock(w.procs[p]) then Some(p) else None
  }

  /** Uninterrupted actions with one reply throughout. */
  function Actions(p: ProcId, n: nat, reply: Reply): seq<Event> {
    seq(n, _ => Advance(p, reply))
  }

  function Solo(x: Shared, pc: Pc, reply: Reply, n: nat): Effect
    decreases n
  {
    if n == 0 || !HoldsLock(pc) then Effect(x, pc)
    else Solo(Act(x, pc, reply).shared, Act(x, pc, reply).pc, reply, n - 1)
  }

  lemma {:induction false} SoloRun(w: World, p: ProcId, n: nat, reply: Reply)
    requires Holding(w, p)
    ensures var effect := Solo(w.shared, w.procs[p], reply, n);
            Run(w, Actions(p, n, reply)) == Place(w.(shared := effect.shared), p, effect.pc)
    decreases n
  {
    if n == 0 {
      assert w.procs[p := w.procs[p]] == w.procs;
    } else {
      var next := Next(w, Advance(p, reply));
      assert Actions(p, n, reply)[1..] == Actions(p, n - 1, reply);
      SoloRun(next, p, n - 1, reply);
      var effect := Solo(next.shared, next.procs[p], reply, n - 1);
      assert next.procs[p := effect.pc] == w.procs[p := effect.pc];
      assert effect == Solo(w.shared, w.procs[p], reply, n);
    }
  }

  // ---------------------------------------------------------------- the pid reservation

  predicate LeavesPidAlone(x: Shared, after: Shared) {
    after.reserved && after.spawned == x.spawned && (after.backend == x.backend || after.backend.None?)
  }

  lemma ActRespectsReservation(x: Shared, pc: Pc, reply: Reply)
    requires x.reserved
    ensures LeavesPidAlone(x, Act(x, pc, reply).shared)
    ensures StopsBackend(pc) || StartsBackend(pc) ==> Act(x, pc, reply).pc == pc
  {
  }

  /** While another command holds the pid reservation, no interleaving of the operations starts a backend. */
  lemma {:induction false} ReservationIsRespected(w: World, events: seq<Event>)
    requires w.shared.reserved && forall i | 0 <= i < |events| :: !events[i].VersionDone?
    ensures LeavesPidAlone(w.shared, Run(w, events).shared)
    decreases |events|
  {
    if events != [] {
      var event := events[0];
      if event.Advance? && Running(w, event.p) {
        ActRespectsReservation(w.shared, w.procs[event.p], event.reply);
      }
      assert !event.VersionDone?;
      ReservationIsRespected(Next(w, event), events[1..]);
    }
  }

  // ---------------------------------------------------------------- which failures break the setting

  /** The setting an operation is asked to save. */
  function Wanted(op: Op): Option<bool> {
    match op
    case SetRemoteControl(e) => Some(e)
    case Bootstrap(e) => Some(e)
    case EnsureRemoteControl => Some(true)
    case _ => None
  }

  /** The setting an operation may still save. */
  function Pending(pc: Pc): Option<bool> {
    match pc
    case InSet(SetLoad(e), _) => Some(e)
    case InSet(SetCheck(_, e), _) => Some(e)
    case InSet(SetProbe(_, e), _) => Some(e)
    case InSet(SetDecide(_, e, _), _) => Some(e)
    case InSet(SetSave(e, _), _) => Some(e)
    case InBoot(BootProbe(e)) => Some(e)
    case InBoot(BootManaged(e)) => Some(e)
    case InBoot(BootSave(e)) => Some(e)
    case InEnsure(_) => Some(true)
    case _ => None
  }

  /** The operation cannot bring about a mismatch any more. */
  predicate Safe(x: Shared, pc: Pc) {
    Relies(x, pc) && Consistent(x) && (Pending(pc).Some? && x.backend.Some? ==> Pending(pc).value == x.setting)
  }

  lemma SetIsSafe(x: Shared, q: SetPc, k: bool, reply: Reply)
    requires Safe(x, InSet(q, k))
    ensures Safe(ActSet(x, q, k, reply).shared, ActSet(x, q, k, reply).pc)
  {
  }

  lemma BootIsSafe(x: Shared, q: BootPc, reply: Reply)
    requires Safe(x, InBoot(q))
    ensures Safe(ActBoot(x, q, reply).shared, ActBoot(x, q, reply).pc)
  {
  }

  lemma ActIsSafe(x: Shared, pc: Pc, reply: Reply)
    requires Safe(x, pc)
    ensures Safe(Act(x, pc, reply).shared, Act(x, pc, reply).pc)
  {
    match pc
    case InSet(q, k) => SetIsSafe(x, q, k, reply);
    case InBoot(q) => BootIsSafe(x, q, reply);
    case InStart(q) => StartIsSound(x, q, reply);
    case InRestart(q) => RestartIsSound(x, q, reply);
    case InUpdate(q) => UpdateIsSound(x, q, reply);
    case _ =>
  }

  lemma {:induction false} AloneStaysSafe(w: World, p: ProcId, events: seq<Event>)
    requires Holding(w, p) && Safe(w.shared, w.procs[p]) && Alone(events, p)
    ensures Holding(Run(w, events), p) && Safe(Run(w, events).shared, Run(w, events).procs[p])
    decreases |events|
  {
    if events != [] {
      var event := events[0];
      assert !event.Launch? && !event.Acquire? && !event.Fail?;
      if event.Advance? && Running(w, p) {
        ActIsSafe(w.shared, w.procs[p], event.reply);
      }
      AloneStaysSafe(Next(w, event), p, events[1..]);
    }
  }

  predicate Mismatch(w: World) {
    w.lock.None? && !Consistent(w.shared)
  }

  /** The operation, failing at some point of some run, leaves a mismatch behind. */
  ghost predicate CanBreak(w: World, p: ProcId, op: Op) {
    exists events :: Alone(events, p) && Mismatch(Run(w, Opening(p, op) + events + [Fail(p)]))
  }

  lemma FailedRun(w: World, p: ProcId, op: Op, events: seq<Event>)
    requires w.lock.None? && p !in w.procs
    ensures Run(w, Opening(p, op) + events + [Fail(p)]) == Next(Run(Begun(w, p, op), events), Fail(p))
  {
    RunAppend(w, Opening(p, op) + events, [Fail(p)]);
    RunAppend(w, Opening(p, op), events);
    Begin(w, p, op);
    var last := Run(Begun(w, p, op), events);
    assert [Fail(p)][1..] == [];
    assert Run(last, [Fail(p)]) == Run(Next(last, Fail(p)), []);
  }

  const ANSWER := Reply(true, "1", "2")

  lemma SetReachesWindow(x: Shared, k: bool)
    requires x.backend == Some(x.setting)
    ensures Solo(x, InSet(SetLoad(!x.setting), k), ANSWER, 4)
            == Effect(x.(setting := !x.setting), InSet(SetStop(!x.setting), k))
  {
    var s := x.setting;
    assert Solo(x, InSet(SetLoad(!s), k), ANSWER, 4) == Solo(x, InSet(SetCheck(s, !s), k), ANSWER, 3);
    assert Solo(x, InSet(SetCheck(s, !s), k), ANSWER, 3) == Solo(x, InSet(SetDecide(s, !s, true), k), ANSWER, 2);
    assert Solo(x, InSet(SetDecide(s, !s, true), k), ANSWER, 2) == Solo(x, InSet(SetSave(!s, true), k), ANSWER, 1);
  }

  lemma BootReachesWindow(x: Shared)
    requires x.backend == Some(x.setting)
    ensures Solo(x, InBoot(BootProbe(!x.setting)), ANSWER, 3)
            == Effect(x.(setting := !x.setting), InBoot(BootCheck(!x.setting)))
  {
    var e := !x.setting;
    assert Solo(x, InBoot(BootProbe(e)), ANSWER, 3) == Solo(x, InBoot(BootManaged(e)), ANSWER, 2);
    assert Solo(x, InBoot(BootManaged(e)), ANSWER, 2) == Solo(x, InBoot(BootSave(e)), ANSWER, 1);
  }

  /** The actions that take the operation into its window. */
  lemma ReachesWindow(x: Shared, op: Op) returns (n: nat)
    requires x.backend == Some(x.setting) && Wanted(op) == Some(!x.setting)
    ensures var effect := Solo(x, First(op), ANSWER, n);
            effect.shared == x.(setting := !x.setting) && HoldsLock(effect.pc)
  {
    match op
    case SetRemoteControl(e) =>
      SetReachesWindow(x, false);
      n := 4;
    case Bootstrap(e) =>
      BootReachesWindow(x);
      n := 3;
    case EnsureRemoteControl =>
      n := if x.updater then 6 else 5;
      assert Solo(x, InEnsure(EnsureLoad), ANSWER, n) == Solo(x, InEnsure(EnsureCheck), ANSWER, n - 1);
      if x.updater {
        assert Solo(x, InEnsure(EnsureCheck), ANSWER, 5) == Solo(x, InSet(SetLoad(true), true), ANSWER, 4);
        SetReachesWindow(x, true);
      } else {
        assert Solo(x, InEnsure(EnsureCheck), ANSWER, 4) == Solo(x, InBoot(BootProbe(true)), ANSWER, 3);
        BootReachesWindow(x);
      }
  }

  lemma BreaksInWindow(w: World, p: ProcId, op: Op)
    requires Invariant(w) && w.lock.None? && p !in w.procs
    requires w.shared.backend.Some? && Wanted(op) == Some(!w.shared.setting)
    ensures CanBreak(w, p, op)
  {
    var n := ReachesWindow(w.shared, op);
    var events := Actions(p, n, ANSWER);
    SoloRun(Begun(w, p, op), p, n, ANSWER);
    FailedRun(w, p, op, events);
    assert Alone(events, p) && Mismatch(Run(w, Opening(p, op) + events + [Fail(p)]));
  }

  /** From every quiet state, a failure of an operation can leave a mismatch behind if and only if a managed
      backend runs and the operation is to save the other setting. */
  lemma FailureBreaksIff(w: World, p: ProcId, op: Op)
    requires Invariant(w) && w.lock.None? && p !in w.procs
    ensures CanBreak(w, p, op) <==> w.shared.backend.Some? && Wanted(op) == Some(!w.shared.setting)
  {
    if w.shared.backend.Some? && Wanted(op) == Some(!w.shared.setting) {
      BreaksInWindow(w, p, op);
    } else {
      forall events | Alone(events, p) ensures !Mismatch(Run(w, Opening(p, op) + events + [Fail(p)])) {
        FailedRun(w, p, op, events);
        AloneStaysSafe(Begun(w, p, op), p, events);
      }
    }
  }

  // ---------------------------------------------------------------- what a finished operation has achieved

  predicate SetAims(x: Shared, q: SetPc, e: bool) {
    match q
    case SetLoad(f) => f == e
    case SetCheck(s, f) => f == e && s == x.setting
    case SetProbe(s, f) => f == e && s == x.setting
    case SetDecide(s, f, _) => f == e && s == x.setting
    case SetSave(f, _) => f == e
    case _ => x.setting == e
  }

  predicate BootAims(x: Shared, q: BootPc, e: bool) {
    match q
    case BootProbe(f) => f == e
    case BootManaged(f) => f == e
    case BootSave(f) => f == e
    case _ => x.setting == e
  }

  /** What a finished operation leaves, whatever the environment did meanwhile. */
  predicate Achieved(x: Shared, op: Op) {
    match op
    case Stop => x.backend.None?
    case SetRemoteControl(e) => x.setting == e
    case Bootstrap(e) => x.setting == e
    case EnsureRemoteControl => x.setting
    case _ => true
  }

  /** The operation is on its way there. */
  predicate Aims(x: Shared, pc: Pc, op: Op) {
    || (pc.Done? && Achieved(x, op))
    || pc.Failed?
    || (match op
        case Stop => pc.InStop? && (pc.stop.StopProbe? ==> x.backend.None?)
        case SetRemoteControl(e) => pc.InSet? && !pc.andStart && SetAims(x, pc.set_, e)
        case Bootstrap(e) => pc.InBoot? && BootAims(x, pc.boot, e)
        case EnsureRemoteControl =>
          || pc.InEnsure?
          || (pc.InSet? && pc.andStart && SetAims(x, pc.set_, true))
          || (pc.InStart? && x.setting)
          || (pc.InBoot? && BootAims(x, pc.boot, true))
        case _ => true)
  }

  lemma SetActAims(x: Shared, q: SetPc, k: bool, reply: Reply, e: bool)
    requires SetAims(x, q, e)
    ensures var a := ActSet(x, q, k, reply);
            || (a.pc.InSet? && a.pc.andStart == k && SetAims(a.shared, a.pc.set_, e))
            || (a.pc == AfterSet(k) && a.shared.setting == e)
            || a.pc.Failed?
  {
  }

  lemma BootActAims(x: Shared, q: BootPc, reply: Reply, e: bool)
    requires BootAims(x, q, e)
    ensures var a := ActBoot(x, q, reply);
            || (a.pc.InBoot? && BootAims(a.shared, a.pc.boot, e))
            || (a.pc.Done? && a.shared.setting == e)
            || a.pc.Failed?
  {
  }

  lemma ActAims(x: Shared, pc: Pc, reply: Reply, op: Op)
    requires Aims(x, pc, op)
    ensures Aims(Act(x, pc, reply).shared, Act(x, pc, reply).pc, op)
  {
    match pc
    case InSet(q, k) =>
      if op.SetRemoteControl? || op.EnsureRemoteControl? {
        SetActAims(x, q, k, reply, Wanted(op).value);
      }
    case InBoot(q) =>
      if op.Bootstrap? || op.EnsureRemoteControl? {
        BootActAims(x, q, reply, Wanted(op).value);
      }
    case _ =>
  }

  lemma {:induction false} AloneAims(w: World, p: ProcId, events: seq<Event>, op: Op)
    requires Holding(w, p) && Aims(w.shared, w.procs[p], op) && Alone(events, p)
    ensures Holding(Run(w, events), p) && Aims(Run(w, events).shared, Run(w, events).procs[p], op)
    decreases |events|
  {
    if events != [] {
      var event := events[0];
      assert !event.Launch? && !event.Acquire? && !event.Fail?;
      if event.Advance? && Running(w, p) {
        ActAims(w.shared, w.procs[p], event.reply, op);
      }
      AloneAims(Next(w, event), p, events[1..], op);
    }
  }

  /** No backend crashes and no other server comes up. */
  predicate Calm(events: seq<Event>) {
    forall i | 0 <= i < |events| :: !events[i].BackendCrashes? && !events[i].UnmanagedUp?
  }

  /** The operations that leave a backend running: those that start one, and the others when one ran before. */
  predicate LeavesBackend(op: Op, ran: bool) {
    match op
    case Start => true
    case Restart => true
    case Bootstrap(_) => true
    case EnsureRemoteControl => true
    case Stop => false
    case SetRemoteControl(_) => ran
    case Update(_) => ran
  }

  /** The operation cannot finish without a running backend. */
  predicate Brings(x: Shared, pc: Pc, op: Op) {
    || (pc.Done? && x.backend.Some?)
    || pc.Failed?
    || (match op
        case Start => pc.InStart?
        case Restart => pc.InRestart?
        case Bootstrap(_) => pc.InBoot?
        case EnsureRemoteControl => pc.InEnsure? || (pc.InSet? && pc.andStart) || pc.InStart? || pc.InBoot?
        case Stop => false
        case SetRemoteControl(_) =>
          && pc.InSet? && !pc.andStart && !pc.set_.SetProbe?
          && (pc.set_.SetLoad? || pc.set_.SetCheck? ==> x.backend.Some?)
          && (pc.set_.SetDecide? || pc.set_.SetSave? ==> pc.set_.managed)
        case Update(_) =>
          && pc.InUpdate? && !pc.update.UpdUnmanaged?
          && (pc.update.UpdLoad? || pc.update.UpdCheck? || pc.update.UpdProbe? ==> x.backend.Some?))
  }

  lemma SetActBrings(x: Shared, q: SetPc, k: bool, reply: Reply)
    requires !x.unmanaged && Brings(x, InSet(q, k), SetRemoteControl(true))
    ensures var a := ActSet(x, q, k, reply); !a.shared.unmanaged && Brings(a.shared, a.pc, SetRemoteControl(true))
  {
  }

  lemma ActBrings(x: Shared, pc: Pc, reply: Reply, op: Op)
    requires !x.unmanaged && Brings(x, pc, op)
    ensures !Act(x, pc, reply).shared.unmanaged && Brings(Act(x, pc, reply).shared, Act(x, pc, reply).pc, op)
  {
    match pc
    case InSet(q, k) =>
      if op.SetRemoteControl? {
        SetActBrings(x, q, k, reply);
      }
    case _ =>
  }

  lemma {:induction false} AloneBrings(w: World, p: ProcId, events: seq<Event>, op: Op)
    requires Holding(w, p) && !w.shared.unmanaged && Brings(w.shared, w.procs[p], op)
    requires Alone(events, p) && Calm(events)
    ensures p in Run(w, events).procs && Brings(Run(w, events).shared, Run(w, events).procs[p], op)
    decreases |events|
  {
    if events != [] {
      var event := events[0];
      assert !event.Launch? && !event.Acquire? && !event.Fail? && !event.BackendCrashes? && !event.UnmanagedUp?;
      if event.Advance? && Running(w, p) {
        ActBrings(w.shared, w.procs[p], event.reply, op);
      }
      AloneBrings(Next(w, event), p, events[1..], op);
    }
  }

  /** A restart and a bootstrap cannot finish without having started a backend of their own. `count` is how many
      were started before. */
  predicate Renews(x: Shared, pc: Pc, count: nat) {
    match pc
    case InRestart(q) =>
      && x.spawned >= count && (q.RestartSpawn? ==> x.backend.None?) && (q.RestartWait? ==> x.spawned > count)
    case InBoot(q) =>
      && x.spawned >= count && (q.BootSpawn? ==> x.backend.None?)
      && (q.BootUpdaterCheck? || q.BootUpdaterStop? || q.BootUpdaterStart? || q.BootWait? ==> x.spawned > count)
    case Done => x.spawned > count
    case Failed => true
    case _ => false
  }

  lemma ActRenews(x: Shared, pc: Pc, reply: Reply, count: nat)
    requires Renews(x, pc, count)
    ensures Renews(Act(x, pc, reply).shared, Act(x, pc, reply).pc, count)
  {
  }

  lemma {:induction false} AloneRenews(w: World, p: ProcId, events: seq<Event>, count: nat)
    requires Holding(w, p) && Renews(w.shared, w.procs[p], count) && Alone(events, p)
    ensures p in Run(w, events).procs && Renews(Run(w, events).shared, Run(w, events).procs[p], count)
    decreases |events|
  {
    if events != [] {
      var event := events[0];
      assert !event.Launch? && !event.Acquire? && !event.Fail?;
      if event.Advance? && Running(w, p) {
        ActRenews(w.shared, w.procs[p], event.reply, count);
      }
      AloneRenews(Next(w, event), p, events[1..], count);
    }
  }

  /** A bootstrap about to finish has started the updater. */
  predicate HasUpdater(x: Shared, pc: Pc) {
    (pc.InBoot? && (pc.boot.BootWait? ==> x.updater)) || (pc.Done? && x.updater) || pc.Failed?
  }

  predicate UpdaterLives(events: seq<Event>) {
    forall i | 0 <= i < |events| :: !events[i].UpdaterDies?
  }

  lemma {:induction false} AloneHasUpdater(w: World, p: ProcId, events: seq<Event>)
    requires Holding(w, p) && HasUpdater(w.shared, w.procs[p]) && Alone(events, p) && UpdaterLives(events)
    ensures p in Run(w, events).procs && HasUpdater(Run(w, events).shared, Run(w, events).procs[p])
    decreases |events|
  {
    if events != [] {
      var event := events[0];
      assert !event.Launch? && !event.Acquire? && !event.Fail? && !event.UpdaterDies?;
      AloneHasUpdater(Next(w, event), p, events[1..]);
    }
  }

  lemma {:induction false} AloneIsClean(w: World, p: ProcId, events: seq<Event>)
    requires Alone(events, p)
    ensures CleanRun(w, events)
    decreases |events|
  {
    if events != [] {
      assert !events[0].Fail?;
      AloneIsClean(Next(w, events[0]), p, events[1..]);
    }
  }

  lemma BegunInvariant(w: World, p: ProcId, op: Op)
    requires Invariant(w) && w.lock.None? && p !in w.procs
    ensures Invariant(Begun(w, p, op))
  {
  }

  /** An operation that finishes, from every quiet state and whatever the environment does meanwhile: a stop leaves
      no backend, and a remote-control change, a bootstrap and the combined command leave the setting they were
      asked for; a restart and a bootstrap have started a new backend, and a bootstrap the updater, unless it
      died. Without crashes and other servers, a start, a restart, a bootstrap and the combined command,
      and the other two when a backend ran before, leave a backend running with the saved setting. */
  lemma FinishedOperation(w: World, p: ProcId, op: Op, events: seq<Event>)
    requires Invariant(w) && w.lock.None? && p !in w.procs && Alone(events, p)
    requires var t := Run(w, Opening(p, op) + events); p in t.procs && t.procs[p].Done?
    ensures var t := Run(w, Opening(p, op) + events);
            && t.lock.None? && Achieved(t.shared, op)
            && (op.Restart? || op.Bootstrap? ==> t.shared.spawned > w.shared.spawned)
            && (op.Bootstrap? && UpdaterLives(events) ==> t.shared.updater)
            && (!w.shared.unmanaged && Calm(events) && LeavesBackend(op, w.shared.backend.Some?) ==>
                  t.shared.backend == Some(t.shared.setting))
  {
    var begun := Begun(w, p, op);
    RunAppend(w, Opening(p, op), events);
    Begin(w, p, op);
    AloneAims(begun, p, events, op);
    if op.Restart? || op.Bootstrap? {
      AloneRenews(begun, p, events, w.shared.spawned);
    }
    if op.Bootstrap? && UpdaterLives(events) {
      AloneHasUpdater(begun, p, events);
    }
    BegunInvariant(w, p, op);
    AloneIsClean(begun, p, events);
    ConsistentIffClean(begun, events);
    if !w.shared.unmanaged && Calm(events) && LeavesBackend(op, w.shared.backend.Some?) {
      AloneBrings(begun, p, events, op);
    }
  }

  // ---------------------------------------------------------------- operations finish

  /** How many actions an operation needs at most. */
  function Rank(pc: Pc): nat {
    match pc
    case InStart(q) =>
      (match q case StartLoad => 5 case StartProbe(_) => 4 case StartCheck(_) => 3
               case StartSpawn(_) => 2 case StartWait => 1)
    case InRestart(q) =>
      (match q case RestartLoad => 7 case RestartProbe(_) => 6 case RestartManaged(_) => 5 case RestartCheck(_) => 4
               case RestartStop(_) => 3 case RestartSpawn(_) => 2 case RestartWait => 1)
    case InStop(q) => (match q case StopLoad => 4 case StopCheck => 3 case StopStop => 2 case StopProbe => 1)
    case InSet(q, _) =>
      (match q case SetLoad(_) => 13 case SetCheck(_, _) => 12 case SetProbe(_, _) => 11 case SetDecide(_, _, _) => 10
               case SetSave(_, _) => 9 case SetStop(_) => 8 case SetSpawn(_) => 7 case SetWait => 6)
    case InBoot(q) =>
      (match q case BootProbe(_) => 10 case BootManaged(_) => 9 case BootSave(_) => 8 case BootCheck(_) => 7
               case BootStop(_) => 6 case BootSpawn(_) => 5 case BootUpdaterCheck => 4 case BootUpdaterStop => 3
               case BootUpdaterStart => 2 case BootWait => 1)
    case InEnsure(q) => (match q case EnsureLoad => 15 case EnsureCheck => 14)
    case InUpdate(q) =>
      (match q case UpdLoad(_) => 6 case UpdCheck(_, _) => 5 case UpdProbe(_, _) => 4 case UpdStop(_) => 3
               case UpdSpawn(_) => 2 case UpdUnmanaged => 1 case UpdWait => 1)
    case _ => 0
  }

  /** What keeps an operation from failing when its own server answers. */
  predicate Live(x: Shared, pc: Pc) {
    match pc
    case InStart(q) => q.StartWait? ==> x.backend.Some?
    case InRestart(q) => q.RestartManaged? || q.RestartWait? ==> x.backend.Some?
    case InStop(q) => q.StopProbe? ==> x.backend.None?
    case InSet(q, _) =>
      && (q.SetProbe? ==> x.backend.None?)
      && (q.SetWait? || (q.SetDecide? && q.managed) ==> x.backend.Some?)
    case InBoot(q) =>
      q.BootManaged? || q.BootUpdaterCheck? || q.BootUpdaterStop? || q.BootUpdaterStart? || q.BootWait?
      ==> x.backend.Some?
    case InUpdate(q) => (q.UpdUnmanaged? ==> x.backend.None?) && (q.UpdWait? ==> x.backend.Some?)
    case Failed => false
    case _ => true
  }

  predicate Quiet(x: Shared) {
    !x.unmanaged && !x.reserved
  }

  lemma SetActLives(x: Shared, q: SetPc, k: bool, reply: Reply)
    requires Quiet(x) && reply.ready && Live(x, InSet(q, k))
    ensures var a := ActSet(x, q, k, reply);
            Quiet(a.shared) && Live(a.shared, a.pc) && (HoldsLock(a.pc) ==> Rank(a.pc) < Rank(InSet(q, k)))
  {
  }

  lemma BootActLives(x: Shared, q: BootPc, reply: Reply)
    requires Quiet(x) && reply.ready && Live(x, InBoot(q))
    ensures var a := ActBoot(x, q, reply);
            Quiet(a.shared) && Live(a.shared, a.pc) && (HoldsLock(a.pc) ==> Rank(a.pc) < Rank(InBoot(q)))
  {
  }

  lemma ActLives(x: Shared, pc: Pc, reply: Reply)
    requires Quiet(x) && reply.ready && Live(x, pc) && HoldsLock(pc)
    ensures var a := Act(x, pc, reply);
            && Quiet(a.shared) && Live(a.shared, a.pc)
            && (a.pc.Done? || (HoldsLock(a.pc) && Rank(a.pc) < Rank(pc)))
  {
    match pc
    case InSet(q, k) => SetActLives(x, q, k, reply);
    case InBoot(q) => BootActLives(x, q, reply);
    case _ =>
  }

  lemma {:induction false} SoloFinishes(x: Shared, pc: Pc, reply: Reply, n: nat)
    requires Quiet(x) && reply.ready && Live(x, pc) && (pc.Done? || HoldsLock(pc)) && Rank(pc) <= n
    ensures Solo(x, pc, reply, n).pc.Done?
    decreases n
  {
    if HoldsLock(pc) {
      ActLives(x, pc, reply);
      SoloFinishes(Act(x, pc, reply).shared, Act(x, pc, reply).pc, reply, n - 1);
    }
  }

  /** From every quiet state without another server and a held reservation, every operation whose probes are
      answered finishes within fifteen actions. */
  lemma OperationsFinish(w: World, p: ProcId, op: Op, reply: Reply)
    requires w.lock.None? && p !in w.procs && Quiet(w.shared) && reply.ready
    ensures var t := Run(w, Opening(p, op) + Actions(p, 15, reply)); p in t.procs && t.procs[p].Done?
  {
    var begun := Begun(w, p, op);
    RunAppend(w, Opening(p, op), Actions(p, 15, reply));
    Begin(w, p, op);
    SoloRun(begun, p, 15, reply);
    SoloFinishes(w.shared, First(op), reply, 15);
  }

  /** The updater's restart, from the point where it is decided. */
  lemma ReplaceSolo(x: Shared, reply: Reply, n: nat)
    requires Quiet(x) && x.backend == Some(x.setting) && reply.ready && n >= 3
    ensures Solo(x, InUpdate(UpdStop(x.setting)), reply, n) == Effect(x.(spawned := x.spawned + 1), Done)
  {
    var s, y, z := x.setting, x.(backend := None), x.(spawned := x.spawned + 1);
    assert Solo(x, InUpdate(UpdStop(s)), reply, n) == Solo(y, InUpdate(UpdSpawn(s)), reply, n - 1);
    assert Solo(y, InUpdate(UpdSpawn(s)), reply, n - 1) == Solo(z, InUpdate(UpdWait), reply, n - 2);
    assert Solo(z, InUpdate(UpdWait), reply, n - 2) == Solo(z, Done, reply, n - 3);
  }

  lemma DecideSolo(x: Shared, mode: RestartMode, reply: Reply, n: nat)
    requires Quiet(x) && x.backend == Some(x.setting) && reply.ready && n >= 4
    ensures Solo(x, InUpdate(UpdProbe(x.setting, mode)), reply, n)
         == Effect(if mode == Always || reply.version != reply.managedVersion then x.(spawned := x.spawned + 1) else x,
                   Done)
  {
    var next := Act(x, InUpdate(UpdProbe(x.setting, mode)), reply);
    assert Solo(x, InUpdate(UpdProbe(x.setting, mode)), reply, n) == Solo(x, next.pc, reply, n - 1);
    if mode == Always || reply.version != reply.managedVersion {
      ReplaceSolo(x, reply, n - 1);
    }
  }

  lemma UpdateSolo(x: Shared, mode: RestartMode, reply: Reply)
    requires Quiet(x) && x.backend == Some(x.setting) && reply.ready
    ensures Solo(x, InUpdate(UpdLoad(mode)), reply, 15)
         == Effect(if mode == Always || reply.version != reply.managedVersion then x.(spawned := x.spawned + 1) else x,
                   Done)
  {
    var s, n := x.setting, 15;
    assert Solo(x, InUpdate(UpdLoad(mode)), reply, n) == Solo(x, InUpdate(UpdCheck(s, mode)), reply, n - 1);
    assert Solo(x, InUpdate(UpdCheck(s, mode)), reply, n - 1) == Solo(x, InUpdate(UpdProbe(s, mode)), reply, n - 2);
    DecideSolo(x, mode, reply, n - 2);
  }

  lemma StartSolo(x: Shared, reply: Reply)
    requires Quiet(x) && x.backend == Some(x.setting) && reply.ready
    ensures Solo(x, InStart(StartLoad), reply, 15) == Effect(x, Done)
  {
    assert Solo(x, InStart(StartLoad), reply, 15) == Solo(x, InStart(StartProbe(x.setting)), reply, 14);
    assert Solo(x, InStart(StartProbe(x.setting)), reply, 14) == Solo(x, Done, reply, 13);
  }

  /** Beside a running backend that answers, an update starts a new one exactly when it is forced or the versions
      differ, and a start changes nothing at all. */
  lemma RunningBackendIsReplacedIff(w: World, p: ProcId, mode: RestartMode, reply: Reply)
    requires Invariant(w) && w.lock.None? && p !in w.procs && Quiet(w.shared) && w.shared.backend.Some? && reply.ready
    ensures Run(w, Opening(p, Start) + Actions(p, 15, reply)).shared == w.shared
    ensures var after := Run(w, Opening(p, Update(mode)) + Actions(p, 15, reply)).shared;
            && after == w.shared.(spawned := after.spawned)
            && after.spawned
               == w.shared.spawned + if mode == Always || reply.version != reply.managedVersion then 1 else 0
  {
    RunAppend(w, Opening(p, Start), Actions(p, 15, reply));
    Begin(w, p, Start);
    SoloRun(Begun(w, p, Start), p, 15, reply);
    StartSolo(w.shared, reply);
    RunAppend(w, Opening(p, Update(mode)), Actions(p, 15, reply));
    Begin(w, p, Update(mode));
    SoloRun(Begun(w, p, Update(mode)), p, 15, reply);
    UpdateSolo(w.shared, mode, reply);
  }

  // ---------------------------------------------------------------- servers the daemon does not manage

  /** The points an operation can be at before it has looked past an unmanaged server; stopping a backend
      that is not there touches nothing. */
  predicate Guarded(pc: Pc) {
    match pc
    case InStart(q) => q.StartLoad? || q.StartProbe?
    case InRestart(q) => q.RestartLoad? || q.RestartProbe? || q.RestartManaged?
    case InSet(q, _) => q.SetLoad? || q.SetCheck? || q.SetProbe?
    case InBoot(q) => q.BootProbe? || q.BootManaged?
    case InUpdate(q) => q.UpdLoad? || q.UpdCheck? || q.UpdUnmanaged?
    case _ => true
  }

  /** The points at which an operation asks whether the server is a managed one. */
  predicate AtCheck(pc: Pc) {
    || (pc.InRestart? && pc.restart.RestartManaged?)
    || (pc.InSet? && pc.set_.SetCheck?)
    || (pc.InBoot? && pc.boot.BootManaged?)
    || (pc.InUpdate? && pc.update.UpdCheck?)
  }

  /** Only an unmanaged server listens, and no operation is past its guard. */
  ghost predicate OnlyUnmanaged(w: World) {
    && w.shared.unmanaged && w.shared.backend.None?
    && (forall p | p in w.procs :: Guarded(w.procs[p]))
  }

  /** The points at which an operation asks whether any server answers. */
  predicate AtProbe(pc: Pc) {
    || (pc.InStart? && pc.start.StartProbe?)
    || (pc.InRestart? && pc.restart.RestartProbe?)
    || (pc.InSet? && pc.set_.SetProbe?)
    || (pc.InBoot? && pc.boot.BootProbe?)
  }

  /** What takes an operation past its guard: a check made while a `version` command holds the pid reservation
      lock, or a probe that the server leaves unanswered. */
  predicate Misleads(x: Shared, pc: Pc, reply: Reply) {
    (x.reserved && AtCheck(pc)) || (!reply.ready && AtProbe(pc))
  }

  predicate Misled(w: World, event: Event) {
    event.Advance? && Running(w, event.p) && Misleads(w.shared, w.procs[event.p], event.reply)
  }

  predicate NeverMisled(w: World, events: seq<Event>)
    decreases |events|
  {
    events == [] || (!Misled(w, events[0]) && NeverMisled(Next(w, events[0]), events[1..]))
  }

  ghost predicate AlwaysGuarded(w: World, events: seq<Event>)
    decreases |events|
  {
    OnlyUnmanaged(w) && (events == [] || AlwaysGuarded(Next(w, events[0]), events[1..]))
  }

  predicate ServerStays(events: seq<Event>) {
    forall i | 0 <= i < |events| :: !events[i].UnmanagedDown?
  }

  /** Before its guard an action touches nothing, and it passes the guard exactly when it is misled. */
  lemma GuardHoldsIff(x: Shared, pc: Pc, reply: Reply)
    requires x.unmanaged && x.backend.None? && Guarded(pc)
    ensures Act(x, pc, reply).shared == x
    ensures Guarded(Act(x, pc, reply).pc) <==> !Misleads(x, pc, reply)
  {
  }

  lemma GuardedStep(w: World, event: Event)
    requires OnlyUnmanaged(w) && !event.UnmanagedDown?
    ensures OnlyUnmanaged(Next(w, event)) <==> !Misled(w, event)
    ensures Next(w, event).shared.setting == w.shared.setting
  {
    if event.Advance? && Running(w, event.p) {
      GuardHoldsIff(w.shared, w.procs[event.p], event.reply);
      assert event.p in Next(w, event).procs;
    }
  }

  /** While an unmanaged server listens alone, whatever the interleaving: no operation ever gets past its
      guard if and only if no check is made while a `version` command holds the reservation lock and no probe
      at a guard is left unanswered. Then the saved setting stays as it is and no backend is started. */
  lemma {:induction false} UnmanagedServerIsLeftAlone(w: World, events: seq<Event>)
    requires OnlyUnmanaged(w) && ServerStays(events)
    ensures AlwaysGuarded(w, events) <==> NeverMisled(w, events)
    ensures NeverMisled(w, events) ==>
              OnlyUnmanaged(Run(w, events)) && Run(w, events).shared.setting == w.shared.setting
    decreases |events|
  {
    if events != [] {
      assert !events[0].UnmanagedDown?;
      GuardedStep(w, events[0]);
      if !Misled(w, events[0]) {
        UnmanagedServerIsLeftAlone(Next(w, events[0]), events[1..]);
      }
    }
  }

  // ---------------------------------------------------------------- what a misled operation can do

  predicate Touched(before: Shared, after: Shared) {
    after.setting != before.setting || after.backend.Some?
  }

  /** What may mislead an operation: a `version` command at its check, a server that leaves a probe unanswered,
      or either. */
  datatype Cause = Race | Silence | Either

  predicate Allows(cause: Cause, event: Event) {
    && (cause == Race && event.Advance? ==> event.reply.ready)
    && (cause == Silence ==> !event.VersionLooks?)
  }

  predicate AllowsAll(cause: Cause, events: seq<Event>) {
    forall i | 0 <= i < |events| :: Allows(cause, events[i])
  }

  /** Actions of one process beside a server that stays, with nothing but the cause to mislead it. */
  predicate Permitted(events: seq<Event>, p: ProcId, cause: Cause) {
    Alone(events, p) && ServerStays(events) && AllowsAll(cause, events)
  }

  /** The operation, beside an unmanaged server that stays, saves another setting or starts a backend in some
      run of it in which nothing but the cause misleads it. */
  ghost predicate CanTouch(w: World, p: ProcId, op: Op, cause: Cause) {
    exists events :: Permitted(events, p, cause) && Touched(w.shared, Run(w, Opening(p, op) + events).shared)
  }

  /** The operations that can; a remote-control change only when it is asked for the other setting, a start only
      for an unanswered probe, an update only for a raced check. */
  predicate Exposed(op: Op, setting: bool, cause: Cause) {
    match op
    case Start => cause != Race
    case Stop => false
    case SetRemoteControl(e) => e != setting
    case Update(_) => cause != Silence
    case _ => true
  }

  /** The points from which an operation touches nothing even when it is misled by the cause. */
  predicate Harmless(x: Shared, pc: Pc, cause: Cause) {
    match pc
    case InStart(q) => cause == Race && (q.StartLoad? || q.StartProbe?)
    case InStop(_) => true
    case InSet(SetLoad(e), k) => !k && e == x.setting
    case InSet(SetCheck(s, e), k) => !k && s == e
    case InSet(SetProbe(s, e), k) => !k && s == e
    case InSet(SetDecide(s, e, _), k) => !k && s == e
    case InSet(SetWait, k) => !k
    case InUpdate(q) => cause == Silence && (q.UpdLoad? || q.UpdCheck? || q.UpdUnmanaged?)
    case Done => true
    case Failed => true
    case _ => false
  }

  /** Only an unmanaged server listens, and no reservation is held if silence is the only cause. */
  predicate Beside(x: Shared, cause: Cause) {
    x.unmanaged && x.backend.None? && (cause == Silence ==> !x.reserved)
  }

  lemma HarmlessAct(x: Shared, pc: Pc, reply: Reply, cause: Cause)
    requires Beside(x, cause) && Harmless(x, pc, cause) && (cause == Race ==> reply.ready)
    ensures Act(x, pc, reply).shared == x && Harmless(x, Act(x, pc, reply).pc, cause)
  {
  }

  lemma {:induction false} AloneStaysHarmless(w: World, p: ProcId, events: seq<Event>, cause: Cause)
    requires Holding(w, p) && Beside(w.shared, cause) && Harmless(w.shared, w.procs[p], cause)
    requires Permitted(events, p, cause)
    ensures !Touched(w.shared, Run(w, events).shared)
    decreases |events|
  {
    if events != [] {
      var event := events[0];
      assert !event.Launch? && !event.Acquire? && !event.Fail? && !event.UnmanagedDown? && Allows(cause, event);
      if event.Advance? && Running(w, p) {
        HarmlessAct(w.shared, w.procs[p], event.reply, cause);
      }
      AloneStaysHarmless(Next(w, event), p, events[1..], cause);
    }
  }

  lemma RacedRestart(x: Shared)
    requires x.unmanaged && x.backend.None? && x.reserved
    ensures Solo(x, InRestart(RestartLoad), ANSWER, 3) == Effect(x, InRestart(RestartCheck(x.setting)))
  {
    var s := x.setting;
    assert Solo(x, InRestart(RestartLoad), ANSWER, 3) == Solo(x, InRestart(RestartProbe(s)), ANSWER, 2);
    assert Solo(x, InRestart(RestartProbe(s)), ANSWER, 2) == Solo(x, InRestart(RestartManaged(s)), ANSWER, 1);
  }

  lemma RacedEnsure(x: Shared)
    requires x.unmanaged && x.backend.None? && x.reserved && !x.updater
    ensures Solo(x, InEnsure(EnsureLoad), ANSWER, 4) == Effect(x, InBoot(BootSave(true)))
  {
    assert Solo(x, InEnsure(EnsureLoad), ANSWER, 4) == Solo(x, InEnsure(EnsureCheck), ANSWER, 3);
    assert Solo(x, InEnsure(EnsureCheck), ANSWER, 3) == Solo(x, InBoot(BootProbe(true)), ANSWER, 2);
    assert Solo(x, InBoot(BootProbe(true)), ANSWER, 2) == Solo(x, InBoot(BootManaged(true)), ANSWER, 1);
  }

  /** The first part of a raced operation: up to and including the check that takes the reservation for a
      managed backend. `k` actions lead to the point `past`. */
  lemma RacedCheckPasses(x: Shared, op: Op) returns (k: nat, past: Pc)
    requires x.unmanaged && x.backend.None? && x.reserved && !x.updater && Exposed(op, x.setting, Race)
    ensures Solo(x, First(op), ANSWER, k) == Effect(x, past)
    ensures match op
            case Restart => past == InRestart(RestartCheck(x.setting))
            case SetRemoteControl(e) => past == InSet(SetDecide(x.setting, e, true), false)
            case Bootstrap(e) => past == InBoot(BootSave(e))
            case EnsureRemoteControl => past == InBoot(BootSave(true))
            case Update(mode) => past == InUpdate(UpdProbe(x.setting, mode))
  {
    var s := x.setting;
    match op
    case Restart =>
      RacedRestart(x);
      k, past := 3, InRestart(RestartCheck(s));
    case SetRemoteControl(e) =>
      k, past := 2, InSet(SetDecide(s, e, true), false);
      assert Solo(x, First(op), ANSWER, 2) == Solo(x, InSet(SetCheck(s, e), false), ANSWER, 1);
    case Bootstrap(e) =>
      k, past := 2, InBoot(BootSave(e));
      assert Solo(x, First(op), ANSWER, 2) == Solo(x, InBoot(BootManaged(e)), ANSWER, 1);
    case EnsureRemoteControl =>
      RacedEnsure(x);
      k, past := 4, InBoot(BootSave(true));
    case Update(mode) =>
      k, past := 2, InUpdate(UpdProbe(s, mode));
      assert Solo(x, First(op), ANSWER, 2) == Solo(x, InUpdate(UpdCheck(s, mode)), ANSWER, 1);
  }

  /** Past its check a bootstrap saves its setting and starts a backend beside the unmanaged server. */
  lemma BootstrapPastCheck(x: Shared, e: bool)
    requires x.unmanaged && x.backend.None? && !x.reserved
    ensures Solo(x, InBoot(BootSave(e)), ANSWER, 3).shared
        == x.(setting := e, backend := Some(e), spawned := x.spawned + 1)
  {
    var y := x.(setting := e);
    assert Solo(x, InBoot(BootSave(e)), ANSWER, 3) == Solo(y, InBoot(BootCheck(e)), ANSWER, 2);
    assert Solo(y, InBoot(BootCheck(e)), ANSWER, 2) == Solo(y, InBoot(BootSpawn(e)), ANSWER, 1);
  }

  /** Past its check a restart starts a backend beside the unmanaged server. */
  lemma RestartPastCheck(x: Shared)
    requires x.unmanaged && x.backend.None? && !x.reserved
    ensures Solo(x, InRestart(RestartCheck(x.setting)), ANSWER, 2).shared
        == x.(backend := Some(x.setting), spawned := x.spawned + 1)
  {
    var s := x.setting;
    assert Solo(x, InRestart(RestartCheck(s)), ANSWER, 2) == Solo(x, InRestart(RestartSpawn(s)), ANSWER, 1);
  }

  /** Past its check an update does too, when the server's version is not the managed one. */
  lemma UpdatePastCheck(x: Shared, mode: RestartMode)
    requires x.unmanaged && x.backend.None? && !x.reserved
    ensures Solo(x, InUpdate(UpdProbe(x.setting, mode)), ANSWER, 3).shared
        == x.(backend := Some(x.setting), spawned := x.spawned + 1)
  {
    var s := x.setting;
    assert Act(x, InUpdate(UpdProbe(s, mode)), ANSWER) == Effect(x, InUpdate(UpdStop(s)));
    assert Solo(x, InUpdate(UpdProbe(s, mode)), ANSWER, 3) == Solo(x, InUpdate(UpdStop(s)), ANSWER, 2);
    assert Solo(x, InUpdate(UpdStop(s)), ANSWER, 2) == Solo(x, InUpdate(UpdSpawn(s)), ANSWER, 1);
  }

  /** Past its check a remote-control change saves the other setting. */
  lemma SetPastCheck(x: Shared)
    requires x.unmanaged && x.backend.None? && !x.reserved
    ensures Solo(x, InSet(SetDecide(x.setting, !x.setting, true), false), ANSWER, 2).shared == x.(setting := !x.setting)
  {
    var e := !x.setting;
    assert Solo(x, InSet(SetDecide(!e, e, true), false), ANSWER, 2)
        == Solo(x, InSet(SetSave(e, true), false), ANSWER, 1);
  }

  /** A raced operation: `k` actions while the reservation is held, `m` more when it is free again. */
  lemma RacedSolo(x: Shared, op: Op) returns (k: nat, past: Pc, m: nat)
    requires x.unmanaged && x.backend.None? && x.reserved && !x.updater && Exposed(op, x.setting, Race)
    ensures Solo(x, First(op), ANSWER, k) == Effect(x, past) && HoldsLock(past)
    ensures Touched(x, Solo(x.(reserved := false), past, ANSWER, m).shared)
  {
    var free := x.(reserved := false);
    k, past := RacedCheckPasses(x, op);
    match op
    case Restart =>
      RestartPastCheck(free);
      m := 2;
    case SetRemoteControl(e) =>
      SetPastCheck(free);
      m := 2;
    case Bootstrap(e) =>
      BootstrapPastCheck(free, e);
      m := 3;
    case EnsureRemoteControl =>
      BootstrapPastCheck(free, true);
      m := 3;
    case Update(mode) =>
      UpdatePastCheck(free, mode);
      m := 3;
  }

  lemma RunOne(w: World, event: Event)
    ensures Run(w, [event]) == Next(w, event)
  {
    assert [event][1..] == [];
    assert Run(Next(w, event), []) == Next(w, event);
  }

  lemma SecondPhase(w: World, p: ProcId, past: Pc, m: nat)
    requires Holding(w, p) && HoldsLock(w.procs[p]) && HoldsLock(past)
    ensures Run(Run(Place(w, p, past), [VersionDone]), Actions(p, m, ANSWER)).shared
         == Solo(w.shared.(reserved := false), past, ANSWER, m).shared
  {
    RunOne(Place(w, p, past), VersionDone);
    SoloRun(Next(Place(w, p, past), VersionDone), p, m, ANSWER);
  }

  /** Actions while a `version` command holds the reservation, and more once it is done. */
  lemma TwoPhases(w: World, p: ProcId, k: nat, past: Pc, m: nat)
    requires Holding(w, p) && Solo(w.shared, w.procs[p], ANSWER, k) == Effect(w.shared, past) && HoldsLock(past)
    requires HoldsLock(w.procs[p])
    ensures Run(w, Actions(p, k, ANSWER) + [VersionDone] + Actions(p, m, ANSWER)).shared
            == Solo(w.shared.(reserved := false), past, ANSWER, m).shared
  {
    RunAppend(w, Actions(p, k, ANSWER) + [VersionDone], Actions(p, m, ANSWER));
    RunAppend(w, Actions(p, k, ANSWER), [VersionDone]);
    SoloRun(w, p, k, ANSWER);
    SecondPhase(w, p, past, m);
  }

  /** The world in which an operation has just taken the lock while a `version` command looks. */
  function Raced(w: World, p: ProcId, op: Op): World {
    Begun(w, p, op).(shared := w.shared.(reserved := true, updater := false))
  }

  lemma RaceBegins(w: World, p: ProcId, op: Op, rest: seq<Event>)
    requires w.lock.None? && p !in w.procs
    ensures Run(w, Opening(p, op) + ([VersionLooks] + ([UpdaterDies] + rest))) == Run(Raced(w, p, op), rest)
  {
    var begun := Begun(w, p, op);
    RunAppend(w, Opening(p, op), [VersionLooks] + ([UpdaterDies] + rest));
    Begin(w, p, op);
    RunAppend(begun, [VersionLooks], [UpdaterDies] + rest);
    RunOne(begun, VersionLooks);
    RunAppend(Next(begun, VersionLooks), [UpdaterDies], rest);
    RunOne(Next(begun, VersionLooks), UpdaterDies);
  }

  lemma PermittedAppend(a: seq<Event>, b: seq<Event>, p: ProcId, cause: Cause)
    requires Permitted(a, p, cause) && Permitted(b, p, cause)
    ensures Permitted(a + b, p, cause)
  {
  }

  lemma PermittedActions(p: ProcId, n: nat, reply: Reply, cause: Cause)
    requires cause == Race ==> reply.ready
    ensures Permitted(Actions(p, n, reply), p, cause)
  {
  }

  /** A `version` command around the first `k` of an operation's actions. */
  function RacedEvents(p: ProcId, k: nat, m: nat): seq<Event> {
    Actions(p, k, ANSWER) + [VersionDone] + Actions(p, m, ANSWER)
  }

  lemma PermittedRace(p: ProcId, k: nat, m: nat)
    ensures Permitted([VersionLooks] + ([UpdaterDies] + RacedEvents(p, k, m)), p, Race)
  {
    PermittedActions(p, k, ANSWER, Race);
    PermittedActions(p, m, ANSWER, Race);
    PermittedAppend(Actions(p, k, ANSWER), [VersionDone], p, Race);
    PermittedAppend(Actions(p, k, ANSWER) + [VersionDone], Actions(p, m, ANSWER), p, Race);
    PermittedAppend([UpdaterDies], RacedEvents(p, k, m), p, Race);
    PermittedAppend([VersionLooks], [UpdaterDies] + RacedEvents(p, k, m), p, Race);
  }

  lemma TouchingRun(w: World, p: ProcId, op: Op, cause: Cause, events: seq<Event>)
    requires Permitted(events, p, cause) && Touched(w.shared, Run(w, Opening(p, op) + events).shared)
    ensures CanTouch(w, p, op, cause)
  {
  }

  lemma RacedRun(w: World, p: ProcId, op: Op)
    requires w.lock.None? && p !in w.procs && w.shared.unmanaged && w.shared.backend.None?
    requires Exposed(op, w.shared.setting, Race)
    ensures CanTouch(w, p, op, Race)
  {
    var raced := Raced(w, p, op);
    var k, past, m := RacedSolo(raced.shared, op);
    var rest := RacedEvents(p, k, m);
    RaceBegins(w, p, op, rest);
    TwoPhases(raced, p, k, past, m);
    PermittedRace(p, k, m);
    TouchingRun(w, p, op, Race, [VersionLooks] + ([UpdaterDies] + rest));
  }

  // ---------------------------------------------------------------- unanswered probes

  const SILENT := Reply(false, "", "")

  /** Past an unanswered probe a start spawns a backend beside the unmanaged server. */
  lemma SilentStart(x: Shared)
    requires x.backend.None? && !x.reserved
    ensures Solo(x, InStart(StartLoad), SILENT, 4).shared == x.(backend := Some(x.setting), spawned := x.spawned + 1)
  {
    var s := x.setting;
    assert Solo(x, InStart(StartLoad), SILENT, 4) == Solo(x, InStart(StartProbe(s)), SILENT, 3);
    assert Solo(x, InStart(StartProbe(s)), SILENT, 3) == Solo(x, InStart(StartCheck(s)), SILENT, 2);
    assert Solo(x, InStart(StartCheck(s)), SILENT, 2) == Solo(x, InStart(StartSpawn(s)), SILENT, 1);
  }

  /** So does a restart. */
  lemma SilentRestart(x: Shared)
    requires x.backend.None? && !x.reserved
    ensures Solo(x, InRestart(RestartLoad), SILENT, 4).shared
        == x.(backend := Some(x.setting), spawned := x.spawned + 1)
  {
    var s := x.setting;
    assert Solo(x, InRestart(RestartLoad), SILENT, 4) == Solo(x, InRestart(RestartProbe(s)), SILENT, 3);
    assert Solo(x, InRestart(RestartProbe(s)), SILENT, 3) == Solo(x, InRestart(RestartCheck(s)), SILENT, 2);
    assert Solo(x, InRestart(RestartCheck(s)), SILENT, 2) == Solo(x, InRestart(RestartSpawn(s)), SILENT, 1);
  }

  /** A bootstrap saves its setting and spawns. */
  lemma SilentBootstrap(x: Shared, e: bool)
    requires x.backend.None? && !x.reserved
    ensures Solo(x, InBoot(BootProbe(e)), SILENT, 4).shared
        == x.(setting := e, backend := Some(e), spawned := x.spawned + 1)
  {
    var y := x.(setting := e);
    assert Solo(x, InBoot(BootProbe(e)), SILENT, 4) == Solo(x, InBoot(BootSave(e)), SILENT, 3);
    assert Solo(x, InBoot(BootSave(e)), SILENT, 3) == Solo(y, InBoot(BootCheck(e)), SILENT, 2);
    assert Solo(y, InBoot(BootCheck(e)), SILENT, 2) == Solo(y, InBoot(BootSpawn(e)), SILENT, 1);
  }

  /** A remote-control change saves the other setting. */
  lemma SilentSet(x: Shared)
    requires x.backend.None? && !x.reserved
    ensures Solo(x, InSet(SetLoad(!x.setting), false), SILENT, 5).shared == x.(setting := !x.setting)
  {
    var s, e := x.setting, !x.setting;
    assert Solo(x, InSet(SetLoad(e), false), SILENT, 5) == Solo(x, InSet(SetCheck(s, e), false), SILENT, 4);
    assert Solo(x, InSet(SetCheck(s, e), false), SILENT, 4) == Solo(x, InSet(SetProbe(s, e), false), SILENT, 3);
    assert Solo(x, InSet(SetProbe(s, e), false), SILENT, 3)
        == Solo(x, InSet(SetDecide(s, e, false), false), SILENT, 2);
    assert Solo(x, InSet(SetDecide(s, e, false), false), SILENT, 2)
        == Solo(x, InSet(SetSave(e, false), false), SILENT, 1);
  }

  lemma SilentSolo(x: Shared, op: Op) returns (n: nat)
    requires x.backend.None? && !x.reserved && !x.updater && Exposed(op, x.setting, Silence)
    ensures Touched(x, Solo(x, First(op), SILENT, n).shared)
  {
    match op
    case Start =>
      SilentStart(x);
      n := 4;
    case Restart =>
      SilentRestart(x);
      n := 4;
    case SetRemoteControl(e) =>
      SilentSet(x);
      n := 5;
    case Bootstrap(e) =>
      SilentBootstrap(x, e);
      n := 4;
    case EnsureRemoteControl =>
      n := 6;
      assert Solo(x, First(op), SILENT, 6) == Solo(x, InEnsure(EnsureCheck), SILENT, 5);
      assert Solo(x, InEnsure(EnsureCheck), SILENT, 5) == Solo(x, InBoot(BootProbe(true)), SILENT, 4);
      SilentBootstrap(x, true);
  }

  /** The world in which an operation has just taken the lock, with no reservation held and no updater. */
  function Hushed(w: World, p: ProcId, op: Op): World {
    Begun(w, p, op).(shared := w.shared.(reserved := false, updater := false))
  }

  lemma SilenceBegins(w: World, p: ProcId, op: Op, rest: seq<Event>)
    requires w.lock.None? && p !in w.procs
    ensures Run(w, Opening(p, op) + ([VersionDone] + ([UpdaterDies] + rest))) == Run(Hushed(w, p, op), rest)
  {
    var begun := Begun(w, p, op);
    RunAppend(w, Opening(p, op), [VersionDone] + ([UpdaterDies] + rest));
    Begin(w, p, op);
    RunAppend(begun, [VersionDone], [UpdaterDies] + rest);
    RunOne(begun, VersionDone);
    RunAppend(Next(begun, VersionDone), [UpdaterDies], rest);
    RunOne(Next(begun, VersionDone), UpdaterDies);
  }

  lemma SilentRun(w: World, p: ProcId, op: Op)
    requires w.lock.None? && p !in w.procs && w.shared.unmanaged && w.shared.backend.None?
    requires Exposed(op, w.shared.setting, Silence)
    ensures CanTouch(w, p, op, Silence)
  {
    var hushed := Hushed(w, p, op);
    var n := SilentSolo(hushed.shared, op);
    var rest := Actions(p, n, SILENT);
    SilenceBegins(w, p, op, rest);
    SoloRun(hushed, p, n, SILENT);
    PermittedActions(p, n, SILENT, Silence);
    PermittedAppend([UpdaterDies], rest, p, Silence);
    PermittedAppend([VersionDone], [UpdaterDies] + rest, p, Silence);
    TouchingRun(w, p, op, Silence, [VersionDone] + ([UpdaterDies] + rest));
  }

  lemma EitherIsWeaker(w: World, p: ProcId, op: Op, cause: Cause)
    requires CanTouch(w, p, op, cause)
    ensures CanTouch(w, p, op, Either)
  {
    var events :| Permitted(events, p, cause) && Touched(w.shared, Run(w, Opening(p, op) + events).shared);
    assert Permitted(events, p, Either);
  }

  lemma ExposedCanTouch(w: World, p: ProcId, op: Op, cause: Cause)
    requires w.lock.None? && p !in w.procs && w.shared.unmanaged && w.shared.backend.None?
    requires Exposed(op, w.shared.setting, cause)
    ensures CanTouch(w, p, op, cause)
  {
    var source := if cause == Either then (if op.Update? then Race else Silence) else cause;
    if source == Race {
      RacedRun(w, p, op);
    } else {
      SilentRun(w, p, op);
    }
    if cause == Either {
      EitherIsWeaker(w, p, op, source);
    }
  }

  /** Beside an unmanaged server, an operation run alone can be misled into saving another setting or starting a
      backend, by a `version` command at its check, by an unanswered probe or by either, if and only if it is
      exposed to that cause. */
  lemma MisledTouchesIff(w: World, p: ProcId, op: Op, cause: Cause)
    requires w.lock.None? && p !in w.procs && Beside(w.shared, cause)
    ensures CanTouch(w, p, op, cause) <==> Exposed(op, w.shared.setting, cause)
  {
    if Exposed(op, w.shared.setting, cause) {
      ExposedCanTouch(w, p, op, cause);
    } else {
      forall events | Permitted(events, p, cause)
        ensures !Touched(w.shared, Run(w, Opening(p, op) + events).shared)
      {
        RunAppend(w, Opening(p, op), events);
        Begin(w, p, op);
        AloneStaysHarmless(Begun(w, p, op), p, events, cause);
      }
    }
  }
}
