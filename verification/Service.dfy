/**
The service as a step system.  Every store operation, every status transaction
and every call into containerd is one step; API calls and the event monitor
interleave their steps in any order.

A container id names one `statusStorage` for ever (ids are fresh), so `objs`
is the heap of those cells: copies handed out by `Store.Get` are ids into it
and stay usable after the container has left the store.
*/
module Service {
  import opened Wrappers
  import opened ContainerStatus
  import Registrar

  type Id = string
  type Tid = nat
  type Index = Registrar.Index

  // ---------------------------------------------------------------- state

  /** A containerd task. */
  datatype Task = NoTask | Created | Running | Stopped

  /** Where an entry stands with respect to its in-memory store. */
  datatype Place = Building | Stored | Removed | Aborted

  /** How the init process of a task ended. */
  datatype Exit = Exit(code: nat, at: int)

  /** One container: its metadata, its status cell, its store membership and its resources in containerd. */
  datatype Obj = Obj(
    name: string,
    sandbox: Id,
    status: Status,
    lock: Option<Tid>,      // the call inside a long status transaction
    place: Place,
    snapshot: bool,
    rootDir: bool,
    ctr: bool,              // the containerd container
    task: Task,
    initPid: nat,           // pid of the init process of its task, 0 before any task
    exit: Option<Exit>,     // how that process ended
    // history
    creator: Tid,
    remover: Option<Tid>,   // the call that has set `removing`
    starts: nat,            // startContainer calls that got past the guards
    tasks: nat,             // tasks created for it
    dropped: bool)          // its exit event was given up by the monitor

  /** One sandbox. */
  datatype Sandbox = Sandbox(name: string, place: Place, task: Task, creator: Tid, remover: Tid)

  datatype Event =
    | ExitEvent(id: Id, pid: nat, code: nat, at: int)
    | OomEvent(id: Id)

  /** The event monitor: one goroutine, one event at a time. */
  datatype Monitor =
    | Idle
    | Got(ev: Event)        // received
    | Found(ev: Event)      // container looked up
    | Matched(ev: Event)    // the pid is the recorded init pid
    | Deleted(ev: Event)    // the task is deleted
    | Panicked              // nil dereference: an OOM event of an unknown container

  datatype CreatePc = ReserveName | Acquire(k: nat) | Build | AddToStore | Undo(left: nat) | ReleaseName

  datatype StartPc =
    | Guard | SandboxGet | SandboxTask | Pipes | Loggers | Mounts | TaskCreate | TaskStart
    | Commit | CleanupTask | CommitFailure

  datatype StopPc = ReadState | Image | Term | Kill | WaitLookup(first: bool) | WaitRead(first: bool)

  datatype RemovePc = SetRemovingPc | Snapshot | RootDir | Ctr | DeleteStore | Release | Reset

  datatype RunPc = RunReserve | RunTask | RunRest | RunAdd | RunUndoTask | RunRelease

  datatype StopSbPc = SbList | SbLoop | SbNetwork | SbUnmount | SbSubscribe | SbGet | SbKill | SbWait | SbDelete

  datatype RemoveSbPc = RsGet | RsSnapshot | RsList | RsLoop | RsRootDir | RsCtr | RsDelete | RsRelease

  /** The containers that the loop of StopPodSandbox has inspected: those it found running, and the others. */
  datatype Seen = Seen(running: set<Id>, idle: set<Id>)

  /** Who called stopContainer or RemoveContainer: the API, or the loop of a sandbox call. */
  datatype Up =
    | Top
    | StopLoop(sid: Id, listed: seq<Id>, next: nat, seen: Seen)
    | RemoveLoop(sid: Id, listed: seq<Id>, next: nat)

  datatype Outcome =
    | Failed
    | Plain
    | StopDone(id: Id, sawRunning: bool)
    | SandboxStopped(sid: Id, listed: seq<Id>, seen: Seen)
    | SandboxRemoved(sid: Id, listed: seq<Id>)

  datatype Call =
    | Creating(id: Id, cpc: CreatePc)
    | Starting(id: Id, spc: StartPc)
    | Stopping(id: Id, graceful: bool, tpc: StopPc, up: Up)
    | Removing(id: Id, rpc: RemovePc, up: Up)
    | RunningSb(sid: Id, npc: RunPc)
    | StoppingSb(sid: Id, listed: seq<Id>, next: nat, seen: Seen, opc: StopSbPc)
    | RemovingSb(sid: Id, listed: seq<Id>, next: nat, mpc: RemoveSbPc)
    | Finished(out: Outcome)

  datatype World = World(
    objs: map<Id, Obj>,
    names: Index,                 // containerNameIndex
    sbs: map<Id, Sandbox>,
    sbNames: Index,               // sandboxNameIndex
    calls: map<Tid, Call>,
    queue: seq<Event>,            // published, not yet received by the monitor
    monitor: Monitor)

  const INIT := World(map[], Registrar.EMPTY, map[], Registrar.EMPTY, map[], [], Idle)

  /** Keys of the container store and of the sandbox store. */
  ghost function Store(w: World): set<Id> {
    set id | id in w.objs && w.objs[id].place == Stored
  }

  ghost function SandboxStore(w: World): set<Id> {
    set id | id in w.sbs && w.sbs[id].place == Stored
  }

  // -------------------------------------------------------------- actions

  /** What a foreign call answers. */
  datatype Reply = Success | NotFound | Error

  /**
  The nondeterminism of one step: the reply of a foreign call, whether a
  failing removal took effect anyway, a pid, the clock, an error text, and the
  order in which `List` walks its map.
  */
  datatype Choice = Choice(reply: Reply, effect: bool, pid: nat, now: int, msg: string, order: seq<Id>)

  datatype Request =
    | CreateContainer(name: string, sandbox: Id, id: Id)
    | StartContainer(id: Id)
    | StopContainer(id: Id, graceful: bool)
    | RemoveContainer(id: Id)
    | RunPodSandbox(name: string, sid: Id)
    | StopPodSandbox(sid: Id)
    | RemovePodSandbox(sid: Id)

  datatype Action =
    | Begin(t: Tid, req: Request)
    | Go(t: Tid, c: Choice)
    | MonitorGo(c: Choice)
    | TaskExits(id: Id, code: nat, at: int)                  // the init process of a container ends
    | OtherExits(id: Id, pid: nat, code: nat, at: int)       // an exec process, or a process of a sandbox
    | Oom(id: Id)
    | SandboxExits(sid: Id)

  // ---------------------------------------------------------------- steps

  /** What a step of a call changes: the call, the container it works on, the container name index. */
  datatype Delta = Delta(call: Call, obj: Obj, names: Index)

  /** The same for a step that works on a sandbox. */
  datatype DeltaSb = DeltaSb(call: Call, sb: Sandbox, names: Index)

  function Apply(w: World, t: Tid, id: Id, d: Delta): World {
    w.(calls := w.calls[t := d.call], objs := w.objs[id := d.obj], names := d.names)
  }

  function ApplySb(w: World, t: Tid, sid: Id, d: DeltaSb): World {
    w.(calls := w.calls[t := d.call], sbs := w.sbs[sid := d.sb], sbNames := d.names)
  }

  predicate Fresh(w: World, id: Id) {
    id != "" && id !in w.objs && id !in w.sbs
  }

  predicate InStore(w: World, id: Id) {
    id in w.objs && w.objs[id].place == Stored
  }

  predicate InSandboxStore(w: World, sid: Id) {
    sid in w.sbs && w.sbs[sid].place == Stored
  }

  function NewObj(name: string, sid: Id, t: Tid): Obj {
    Obj(name, sid, ZERO_STATUS, None, Building, false, false, false, NoTask, 0, None, t, None, 0, 0, false)
  }

  function NewSandbox(name: string, t: Tid): Sandbox {
    Sandbox(name, Building, NoTask, t, t)
  }

  /** Where a call starts after its first lookup, in the container store or in the sandbox store. */
  function FirstCall(w: World, req: Request): Call {
    match req
    case CreateContainer(_, _, id) => Creating(id, ReserveName)
    case StartContainer(id) => if InStore(w, id) then Starting(id, Guard) else Finished(Failed)
    case StopContainer(id, graceful) =>
      if InStore(w, id) then Stopping(id, graceful, ReadState, Top) else Finished(Failed)
    case RemoveContainer(id) => if InStore(w, id) then Removing(id, SetRemovingPc, Top) else Finished(Plain)
    case RunPodSandbox(_, sid) => RunningSb(sid, RunReserve)
    case StopPodSandbox(sid) =>
      if InSandboxStore(w, sid) then StoppingSb(sid, [], 0, Seen({}, {}), SbList) else Finished(Failed)
    case RemovePodSandbox(sid) => if InSandboxStore(w, sid) then RemovingSb(sid, [], 0, RsGet) else Finished(Plain)
  }

  /** An API call arrives.  The two creating calls generate a fresh id. */
  function BeginStep(w: World, t: Tid, req: Request): Option<World> {
    if t in w.calls then None
    else if req.CreateContainer? && !InSandboxStore(w, req.sandbox) then
      Some(w.(calls := w.calls[t := Finished(Failed)]))
    else if req.CreateContainer? then
      if !Fresh(w, req.id) then None
      else Some(Apply(w, t, req.id, Delta(FirstCall(w, req), NewObj(req.name, req.sandbox, t), w.names)))
    else if req.RunPodSandbox? then
      if !Fresh(w, req.sid) then None
      else Some(ApplySb(w, t, req.sid, DeltaSb(FirstCall(w, req), NewSandbox(req.name, t), w.sbNames)))
    else
      Some(w.(calls := w.calls[t := FirstCall(w, req)]))
  }

  /** The k-th resource of a container: snapshot, root directory, containerd container. */
  function SetResource(o: Obj, k: nat, present: bool): Obj {
    if k == 0 then o.(snapshot := present)
    else if k == 1 then o.(rootDir := present)
    else o.(ctr := present)
  }

  /** CreateContainer: reserve, acquire in order, build the object, add; on failure undo in reverse. */
  function CreateStep(o: Obj, names: Index, id: Id, pc: CreatePc, c: Choice): Option<Delta> {
    match pc
    case ReserveName =>
      if names.Refuses(o.name, id) then Some(Delta(Finished(Failed), o.(place := Aborted), names))
      else Some(Delta(Creating(id, Acquire(0)), o, names.Reserve(o.name, id)))
    case Acquire(k) =>
      if c.reply != Success then Some(Delta(Creating(id, Undo(k)), o, names))
      else Some(Delta(Creating(id, if k >= 2 then Build else Acquire(k + 1)), SetResource(o, k, true), names))
    case Build =>
      if c.now == 0 then None
      else Some(Delta(Creating(id, AddToStore), o.(status := ZERO_STATUS.(createdAt := c.now)), names))
    case AddToStore =>
      if o.place == Stored then Some(Delta(Creating(id, Undo(3)), o, names))
      else Some(Delta(Finished(Plain), o.(place := Stored), names))
    case Undo(k) =>
      if k == 0 then Some(Delta(Creating(id, ReleaseName), o, names))
      else Some(Delta(Creating(id, Undo(k - 1)),
        if c.reply == Success || c.effect then SetResource(o, k - 1, false) else o, names))
    case ReleaseName =>
      Some(Delta(Finished(Failed), o.(place := Aborted), names.ReleaseByName(o.name)))
  }

  /** StartContainer: everything from `Guard` to a commit is one transaction under the status lock. */
  function StartStep(o: Obj, names: Index, t: Tid, id: Id, sb: Option<Sandbox>, pc: StartPc, c: Choice): Option<Delta> {
    var fail := Delta(Starting(id, CommitFailure), o, names);
    match pc
    case Guard =>
      if o.lock.Some? then None
      else if !MayStart(o.status) then Some(Delta(Finished(Failed), o, names))
      else Some(Delta(Starting(id, SandboxGet), o.(lock := Some(t), starts := o.starts + 1), names))
    case SandboxGet =>
      Some(if sb.Some? && sb.value.place == Stored then Delta(Starting(id, SandboxTask), o, names) else fail)
    case SandboxTask =>
      if c.reply == Error then Some(fail)
      else if sb.None? || (c.reply == NotFound) != (sb.value.task == NoTask) then None
      else Some(if sb.value.task == Running then Delta(Starting(id, Pipes), o, names) else fail)
    case Pipes =>
      Some(if c.reply == Success then Delta(Starting(id, Loggers), o, names) else fail)
    case Loggers =>
      Some(if c.reply == Success then Delta(Starting(id, Mounts), o, names) else fail)
    case Mounts =>
      if c.reply != Success then Some(fail)
      else if !o.snapshot then None
      else Some(Delta(Starting(id, TaskCreate), o, names))
    case TaskCreate =>
      if c.reply != Success then Some(fail)
      else if o.task != NoTask || c.pid == 0 then None
      else Some(Delta(Starting(id, TaskStart),
        o.(task := Created, initPid := c.pid, exit := None, tasks := o.tasks + 1), names))
    case TaskStart =>
      if c.reply != Success then Some(Delta(Starting(id, CleanupTask), o, names))
      else if o.task == NoTask then None
      else Some(Delta(Starting(id, Commit), o.(task := if o.task == Created then Running else o.task), names))
    case Commit =>
      if c.now == 0 then None
      else Some(Delta(Finished(Plain), o.(status := CommitStart(o.status, o.initPid, c.now), lock := None), names))
    case CleanupTask =>
      if (c.reply == NotFound && o.task != NoTask) || (c.reply == Success && o.task == NoTask) then None
      else Some(Delta(Starting(id, CommitFailure),
        if c.reply == Error && !c.effect then o else o.(task := NoTask), names))
    case CommitFailure =>
      if c.now == 0 then None
      else Some(Delta(Finished(Failed), o.(status := FailStart(o.status, c.now, c.msg), lock := None), names))
  }

  /** What the caller of stopContainer does when it returns nil. */
  function AfterStop(id: Id, saw: bool, up: Up): Call {
    if up.StopLoop? then
      StoppingSb(up.sid, up.listed, up.next + 1,
        if saw then up.seen.(running := up.seen.running + {id}) else up.seen.(idle := up.seen.idle + {id}), SbLoop)
    else Finished(StopDone(id, saw))
  }

  /** stopContainer only reads; the next position of the call is all a step yields. */
  function StopStep(o: Obj, id: Id, graceful: bool, pc: StopPc, up: Up, c: Choice): Option<Call> {
    match pc
    case ReadState =>
      if o.lock.Some? then None
      else if o.status.State() != RUNNING then Some(AfterStop(id, false, up))
      else Some(Stopping(id, graceful, if graceful then Image else Kill, up))
    case Image =>
      Some(if c.reply == Success then Stopping(id, graceful, Term, up) else Finished(Failed))
    case Term =>
      Some(if c.reply == Error then Finished(Failed) else Stopping(id, graceful, WaitLookup(true), up))
    case Kill =>
      Some(if c.reply == Error then Finished(Failed) else Stopping(id, graceful, WaitLookup(false), up))
    case WaitLookup(first) =>
      Some(if o.place == Stored then Stopping(id, graceful, WaitRead(first), up) else AfterStop(id, true, up))
    case WaitRead(first) =>
      if o.lock.Some? then None
      else if o.status.State() == EXITED then Some(AfterStop(id, true, up))
      else if c.reply == Success then Some(Stopping(id, graceful, WaitLookup(first), up))       // next tick
      else Some(if first then Stopping(id, graceful, Kill, up) else Finished(Failed))           // timed out
  }

  /** What the caller of RemoveContainer does when it returns nil. */
  function AfterRemove(up: Up): Call {
    if up.RemoveLoop? then RemovingSb(up.sid, up.listed, up.next + 1, RsLoop) else Finished(Plain)
  }

  function RemoveStep(o: Obj, names: Index, t: Tid, id: Id, pc: RemovePc, up: Up, c: Choice): Option<Delta> {
    match pc
    case SetRemovingPc =>
      if o.lock.Some? then None
      else (match SetRemoving(o.status)
            case Err(_) => Some(Delta(Finished(Failed), o, names))
            case Ok(st) => Some(Delta(Removing(id, Snapshot, up), o.(status := st, remover := Some(t)), names)))
    case Snapshot =>
      if c.reply == NotFound && o.snapshot then None
      else Some(Delta(Removing(id, if c.reply == Error then Reset else RootDir, up),
        o.(snapshot := o.snapshot && c.reply == Error && !c.effect), names))
    case RootDir =>
      Some(Delta(Removing(id, if c.reply == Success then Ctr else Reset, up),
        o.(rootDir := o.rootDir && c.reply != Success && !c.effect), names))
    case Ctr =>
      if c.reply == NotFound && o.ctr then None
      else Some(Delta(Removing(id, if c.reply == Error then Reset else DeleteStore, up),
        o.(ctr := o.ctr && c.reply == Error && !c.effect), names))
    case DeleteStore =>
      Some(Delta(Removing(id, Release, up), o.(place := Removed), names))
    case Release =>
      Some(Delta(AfterRemove(up), o, names.ReleaseByKey(id)))
    case Reset =>
      if o.lock.Some? then None
      else Some(Delta(Finished(Failed), o.(status := ResetRemoving(o.status), remover := None), names))
  }

  /**
  RunPodSandbox, reduced to what the other calls can see of it: the name, the
  task and the store entry.  The steps in between only succeed or fail.
  */
  function RunStep(sb: Sandbox, names: Index, sid: Id, pc: RunPc, c: Choice): Option<DeltaSb> {
    match pc
    case RunReserve =>
      if names.Refuses(sb.name, sid) then Some(DeltaSb(Finished(Failed), sb.(place := Aborted), names))
      else Some(DeltaSb(RunningSb(sid, RunTask), sb, names.Reserve(sb.name, sid)))
    case RunTask =>
      if c.reply != Success then Some(DeltaSb(RunningSb(sid, RunRelease), sb, names))
      else Some(DeltaSb(RunningSb(sid, RunRest), sb.(task := Running), names))
    case RunRest =>
      Some(DeltaSb(RunningSb(sid, if c.reply == Success then RunAdd else RunUndoTask), sb, names))
    case RunAdd =>
      if sb.place == Stored then Some(DeltaSb(RunningSb(sid, RunUndoTask), sb, names))
      else Some(DeltaSb(Finished(Plain), sb.(place := Stored), names))
    case RunUndoTask =>
      Some(DeltaSb(RunningSb(sid, RunRelease),
        if c.reply == Success || c.effect then sb.(task := NoTask) else sb, names))
    case RunRelease =>
      Some(DeltaSb(Finished(Failed), sb.(place := Aborted), names.ReleaseByName(sb.name)))
  }

  /** Does `order` walk the container store, each key once? */
  predicate Lists(w: World, order: seq<Id>) {
    && (forall id :: id in order ==> InStore(w, id))
    && (forall id :: id in w.objs && w.objs[id].place == Stored ==> id in order)
    && (forall i, j :: 0 <= i < j < |order| ==> order[i] != order[j])
  }

  function StopSbStep(w: World, sb: Sandbox, sid: Id, listed: seq<Id>, next: nat, seen: Seen, pc: StopSbPc,
                      c: Choice): Option<DeltaSb> {
    var names := w.sbNames;
    var fail := DeltaSb(Finished(Failed), sb, names);
    match pc
    case SbList =>
      if !Lists(w, c.order) then None
      else Some(DeltaSb(StoppingSb(sid, c.order, 0, seen, SbLoop), sb, names))
    case SbLoop =>
      if next >= |listed| then Some(DeltaSb(StoppingSb(sid, listed, next, seen, SbNetwork), sb, names))
      else if listed[next] !in w.objs then None
      else if w.objs[listed[next]].sandbox != sid then
        Some(DeltaSb(StoppingSb(sid, listed, next + 1, seen, SbLoop), sb, names))
      else Some(DeltaSb(Stopping(listed[next], false, ReadState, StopLoop(sid, listed, next, seen)), sb, names))
    case SbNetwork =>
      Some(if c.reply == Error then fail else DeltaSb(StoppingSb(sid, listed, next, seen, SbUnmount), sb, names))
    case SbUnmount =>
      Some(if c.reply == Error then fail else DeltaSb(StoppingSb(sid, listed, next, seen, SbSubscribe), sb, names))
    case SbSubscribe =>
      Some(if c.reply != Success then fail else DeltaSb(StoppingSb(sid, listed, next, seen, SbGet), sb, names))
    case SbGet =>
      if c.reply == Error then Some(fail)
      else if (c.reply == NotFound) != (sb.task == NoTask) then None
      else if c.reply == NotFound then Some(DeltaSb(Finished(SandboxStopped(sid, listed, seen)), sb, names))
      else
        Some(DeltaSb(StoppingSb(sid, listed, next, seen, if sb.task == Stopped then SbDelete else SbKill), sb, names))
    case SbKill =>
      Some(if c.reply == Error then fail else DeltaSb(StoppingSb(sid, listed, next, seen, SbWait), sb, names))
    case SbWait =>
      Some(if c.reply != Success then fail else DeltaSb(StoppingSb(sid, listed, next, seen, SbDelete), sb, names))
    case SbDelete =>
      if c.reply == Error then Some(if c.effect then fail.(sb := sb.(task := NoTask)) else fail)
      else if (c.reply == NotFound) != (sb.task == NoTask) then None
      else Some(DeltaSb(Finished(SandboxStopped(sid, listed, seen)), sb.(task := NoTask), names))
  }

  function RemoveSbStep(w: World, sb: Sandbox, t: Tid, sid: Id, listed: seq<Id>, next: nat, pc: RemoveSbPc,
                        c: Choice): Option<DeltaSb> {
    var names := w.sbNames;
    var fail := DeltaSb(Finished(Failed), sb, names);
    match pc
    case RsGet =>
      if c.reply != NotFound then Some(fail)
      else if sb.task != NoTask then None
      else Some(DeltaSb(RemovingSb(sid, [], 0, RsSnapshot), sb, names))
    case RsSnapshot =>
      Some(if c.reply == Error then fail else DeltaSb(RemovingSb(sid, [], 0, RsList), sb, names))
    case RsList =>
      if !Lists(w, c.order) then None
      else Some(DeltaSb(RemovingSb(sid, c.order, 0, RsLoop), sb, names))
    case RsLoop =>
      if next >= |listed| then Some(DeltaSb(RemovingSb(sid, listed, next, RsRootDir), sb, names))
      else if listed[next] !in w.objs then None
      else if w.objs[listed[next]].sandbox != sid || w.objs[listed[next]].place != Stored then
        Some(DeltaSb(RemovingSb(sid, listed, next + 1, RsLoop), sb, names))
      else Some(DeltaSb(Removing(listed[next], SetRemovingPc, RemoveLoop(sid, listed, next)), sb, names))
    case RsRootDir =>
      Some(if c.reply != Success then fail else DeltaSb(RemovingSb(sid, listed, next, RsCtr), sb, names))
    case RsCtr =>
      Some(if c.reply == Error then fail else DeltaSb(RemovingSb(sid, listed, next, RsDelete), sb, names))
    case RsDelete =>
      Some(DeltaSb(RemovingSb(sid, listed, next, RsRelease),
        sb.(place := Removed, remover := if sb.place == Stored then t else sb.remover), names))
    case RsRelease =>
      Some(DeltaSb(Finished(SandboxRemoved(sid, listed)), sb, names.ReleaseByKey(sid)))
  }

  /** The container that call `c` works on, or the sandbox. */
  predicate OnContainer(c: Call) {
    c.Creating? || c.Starting? || c.Stopping? || c.Removing?
  }

  predicate OnSandbox(c: Call) {
    c.RunningSb? || c.StoppingSb? || c.RemovingSb?
  }

  function ContainerStep(w: World, t: Tid, call: Call, c: Choice): Option<Delta>
    requires OnContainer(call) && call.id in w.objs
  {
    var o := w.objs[call.id];
    match call
    case Creating(id, pc) => CreateStep(o, w.names, id, pc, c)
    case Starting(id, pc) =>
      StartStep(o, w.names, t, id, if o.sandbox in w.sbs then Some(w.sbs[o.sandbox]) else None, pc, c)
    case Stopping(id, graceful, pc, up) =>
      (match StopStep(o, id, graceful, pc, up, c)
       case None => None
       case Some(call2) => Some(Delta(call2, o, w.names)))
    case Removing(id, pc, up) => RemoveStep(o, w.names, t, id, pc, up, c)
  }

  function SandboxStep(w: World, t: Tid, call: Call, c: Choice): Option<DeltaSb>
    requires OnSandbox(call) && call.sid in w.sbs
  {
    var sb := w.sbs[call.sid];
    match call
    case RunningSb(sid, pc) => RunStep(sb, w.sbNames, sid, pc, c)
    case StoppingSb(sid, listed, next, seen, pc) => StopSbStep(w, sb, sid, listed, next, seen, pc, c)
    case RemovingSb(sid, listed, next, pc) => RemoveSbStep(w, sb, t, sid, listed, next, pc, c)
  }

  /** One step of an API call. */
  function CallStep(w: World, t: Tid, c: Choice): Option<World> {
    if t !in w.calls then None
    else
      var call := w.calls[t];
      if OnContainer(call) && call.id in w.objs then
        match ContainerStep(w, t, call, c)
        case None => None
        case Some(d) => Some(Apply(w, t, call.id, d))
      else if OnSandbox(call) && call.sid in w.sbs then
        match SandboxStep(w, t, call, c)
        case None => None
        case Some(d) => Some(ApplySb(w, t, call.sid, d))
      else None
  }

  /** What a step of the event monitor changes. */
  datatype MonitorDelta = MonitorDelta(monitor: Monitor, obj: Obj)

  /** handleEvent on an event whose container `o` was found, one step at a time. */
  function HandleStep(o: Obj, m: Monitor, c: Choice): Option<MonitorDelta>
    requires m.Found? || m.Matched? || m.Deleted?
  {
    match m
    case Found(ev) =>
      if o.lock.Some? then None
      else if ev.OomEvent? then Some(MonitorDelta(Idle, o.(status := RecordOom(o.status))))
      else Some(MonitorDelta(if ev.pid == o.status.pid then Matched(ev) else Idle, o))
    case Matched(ev) =>
      if c.reply == Error then
        Some(MonitorDelta(Idle, o.(dropped := true, task := if c.effect then NoTask else o.task)))
      else if (c.reply == NotFound) != (o.task == NoTask) then None
      else Some(MonitorDelta(Deleted(ev), o.(task := NoTask)))
    case Deleted(ev) =>
      if ev.OomEvent? || ev.code >= 0x1_0000_0000 || o.lock.Some? then None
      else Some(MonitorDelta(Idle, o.(status := RecordExit(o.status, ev.code, ev.at))))
  }

  function ApplyMonitor(w: World, id: Id, d: MonitorDelta): World {
    w.(monitor := d.monitor, objs := w.objs[id := d.obj])
  }

  /** One step of the event monitor: handleEventStream and handleEvent. */
  function MonitorStep(w: World, c: Choice): Option<World> {
    match w.monitor
    case Panicked => None
    case Idle =>
      if w.queue == [] then None
      else Some(w.(monitor := Got(w.queue[0]), queue := w.queue[1..]))
    case Got(ev) =>
      if InStore(w, ev.id) then Some(w.(monitor := Found(ev)))
      else Some(w.(monitor := if ev.OomEvent? then Panicked else Idle))
    case _ =>
      if w.monitor.ev.id !in w.objs then None
      else match HandleStep(w.objs[w.monitor.ev.id], w.monitor, c)
        case None => None
        case Some(d) => Some(ApplyMonitor(w, w.monitor.ev.id, d))
  }

  /** The init process of a container ends: its task stops and the exit is published. */
  function ExitObj(o: Obj, code: nat, at: int): Obj {
    o.(task := Stopped, exit := Some(Exit(code, at)))
  }

  /** What the processes themselves do; every such step of a container is published as one event. */
  function EnvStep(w: World, a: Action): Option<World>
    requires a.TaskExits? || a.OtherExits? || a.Oom? || a.SandboxExits?
  {
    match a
    case TaskExits(id, code, at) =>
      if id !in w.objs || code >= 0x1_0000_0000 || at == 0 then None
      else if w.objs[id].task != Created && w.objs[id].task != Running then None
      else Some(w.(objs := w.objs[id := ExitObj(w.objs[id], code, at)],
                   queue := w.queue + [ExitEvent(id, w.objs[id].initPid, code, at)]))
    case OtherExits(id, pid, code, at) =>
      if pid == 0 || code >= 0x1_0000_0000 then None
      else if id in w.objs && (w.objs[id].initPid == 0 || pid == w.objs[id].initPid) then None
      else if id !in w.objs && id !in w.sbs then None
      else Some(w.(queue := w.queue + [ExitEvent(id, pid, code, at)]))
    case Oom(id) =>
      if id !in w.objs && id !in w.sbs then None
      else Some(w.(queue := w.queue + [OomEvent(id)]))
    case SandboxExits(sid) =>
      if sid !in w.sbs || w.sbs[sid].task != Running then None
      else Some(w.(sbs := w.sbs[sid := w.sbs[sid].(task := Stopped)]))
  }

  /** The step relation, as a partial function of the action: `None` when the action is not enabled. */
  function Next(w: World, a: Action): Option<World> {
    if w.monitor.Panicked? then None
    else match a
      case Begin(t, req) => BeginStep(w, t, req)
      case Go(t, c) => CallStep(w, t, c)
      case MonitorGo(c) => MonitorStep(w, c)
      case _ => EnvStep(w, a)
  }

  /** The world after a schedule of actions, if every one of them is enabled in turn. */
  function Run(w: World, schedule: seq<Action>): Option<World>
    decreases |schedule|
  {
    if schedule == [] then Some(w)
    else match Next(w, schedule[0])
      case None => None
      case Some(w') => Run(w', schedule[1..])
  }

  ghost predicate Reachable(w: World) {
    exists schedule :: Run(INIT, schedule) == Some(w)
  }
}
