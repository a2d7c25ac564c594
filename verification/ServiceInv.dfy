/**
The invariant of the service, in layers: what holds of each container on its
own, what each pending call relies on, what the queued events say, and what
the name indexes agree on.
*/
module ServiceInv {
  import opened Wrappers
  import opened ContainerStatus
  import opened Service

  // -------------------------------------------------------- one container

  predicate Listed(p: Place) {
    p == Stored || p == Removed
  }

  /** The container was started and has exited. */
  predicate RanAndExited(o: Obj) {
    o.status.startedAt != 0 && o.status.finishedAt != 0
  }

  /** Lifecycle: what the status says agrees with the starts, the task and the exit behind it. */
  predicate LifeOk(o: Obj) {
    var st := o.status;
    && o.starts <= 1 && o.tasks <= o.starts
    && (o.initPid != 0 <==> o.tasks == 1)
    && (o.tasks == 0 ==> o.task == NoTask && o.exit.None?)
    && (o.starts == 0 ==> st.startedAt == 0 && st.finishedAt == 0 && o.lock.None?)
    && (o.starts == 1 && o.lock.None? ==> st.startedAt != 0 || st.finishedAt != 0)
    && (o.lock.Some? ==> o.starts == 1 && st.startedAt == 0 && st.finishedAt == 0)
    && (st.pid != 0 <==> st.State() == RUNNING)
    && (st.startedAt != 0 ==> o.tasks == 1)
    && (st.State() == RUNNING ==> st.pid == o.initPid)
    && (st.startedAt == 0 && st.finishedAt != 0 ==> st.exitCode == ERROR_START_EXIT_CODE)
    && (RanAndExited(o) ==>
          && o.exit.Some? && o.exit.value.code < 0x1_0000_0000
          && st.finishedAt == o.exit.value.at && st.exitCode == ToInt32(o.exit.value.code))
    && (o.exit.Some? ==> o.task == Stopped || o.task == NoTask)
    && (o.exit.Some? ==> o.exit.value.at != 0)
    && (o.task == Stopped ==> o.exit.Some?)
    && (st.State() == RUNNING && o.exit.None? ==> o.task == Running)
    && (o.dropped ==> st.State() == RUNNING && o.exit.Some?)
  }

  /** Removal: `removing` is held by one call, never over a running container, and resources go in order. */
  predicate RemovalOk(o: Obj) {
    var st := o.status;
    && (o.place == Building || o.place == Aborted ==> o.starts == 0 && o.remover.None?)
    && (Listed(o.place) ==> st.createdAt != 0)
    && (st.removing <==> o.remover.Some?)
    && (o.place == Removed ==> st.removing)
    && (o.lock.Some? ==> !st.removing && o.place == Stored)
    && (st.State() == RUNNING ==> !st.removing && o.place == Stored && o.snapshot)
    && (Listed(o.place) ==> (o.snapshot ==> o.rootDir) && (o.rootDir ==> o.ctr))
  }

  predicate ObjOk(o: Obj) {
    LifeOk(o) && RemovalOk(o)
  }

  // ---------------------------------------------------------------- calls

  predicate StartFits(o: Obj, pc: StartPc) {
    match pc
    case Guard => true
    case TaskCreate => o.tasks == 0 && o.snapshot
    case TaskStart => o.tasks == 1 && o.snapshot && (o.exit.None? ==> o.task == Created)
    case Commit => o.tasks == 1 && o.snapshot && (o.exit.None? ==> o.task == Running)
    case CleanupTask => o.tasks == 1
    case CommitFailure => true
    case _ => o.tasks == 0
  }

  predicate RemoveFits(o: Obj, pc: RemovePc) {
    match pc
    case SetRemovingPc => true
    case Snapshot => o.place == Stored
    case RootDir => o.place == Stored && !o.snapshot
    case Ctr => o.place == Stored && !o.rootDir
    case DeleteStore => o.place == Stored && !o.ctr
    case Release => o.place == Removed
    case Reset => o.place == Stored
  }

  predicate CreateFits(o: Obj, pc: CreatePc) {
    match pc
    case ReserveName => o.status.createdAt == 0
    case Acquire(k) => o.status.createdAt == 0 && k <= 2 && (k >= 1 ==> o.snapshot) && (k >= 2 ==> o.rootDir)
    case Build => o.status.createdAt == 0 && o.snapshot && o.rootDir && o.ctr
    case AddToStore => o.snapshot && o.rootDir && o.ctr && o.status.createdAt != 0
    case _ => true
  }

  predicate Known(w: World, id: Id) {
    id in w.objs && Listed(w.objs[id].place)
  }

  predicate KnownSb(w: World, sid: Id) {
    sid in w.sbs && Listed(w.sbs[sid].place)
  }

  /** The first `next` containers on the list that are the sandbox's were inspected; the running ones have exited. */
  ghost predicate SeenOk(w: World, sid: Id, listed: seq<Id>, next: nat, seen: Seen) {
    && next <= |listed|
    && (forall i :: 0 <= i < |listed| ==> Known(w, listed[i]))
    && (forall i :: 0 <= i < next && w.objs[listed[i]].sandbox == sid ==>
          listed[i] in seen.running || listed[i] in seen.idle)
    && (forall id :: id in seen.running ==> Known(w, id) && RanAndExited(w.objs[id]))
  }

  /** The first `next` containers of the list that belong to the sandbox are gone. */
  ghost predicate ListedOk(w: World, sid: Id, listed: seq<Id>, next: nat) {
    && next <= |listed|
    && (forall i :: 0 <= i < |listed| ==> Known(w, listed[i]))
    && (forall i :: 0 <= i < next && w.objs[listed[i]].sandbox == sid ==> w.objs[listed[i]].place == Removed)
  }

  ghost predicate StopUpOk(w: World, id: Id, up: Up) {
    match up
    case Top => true
    case StopLoop(sid, listed, next, seen) =>
      KnownSb(w, sid) && SeenOk(w, sid, listed, next, seen) && next < |listed| && listed[next] == id
    case RemoveLoop(_, _, _) => false
  }

  ghost predicate RemoveUpOk(w: World, id: Id, up: Up) {
    match up
    case Top => true
    case StopLoop(_, _, _, _) => false
    case RemoveLoop(sid, listed, next) =>
      && KnownSb(w, sid) && ListedOk(w, sid, listed, next)
      && next < |listed| && listed[next] == id && id in w.objs && w.objs[id].sandbox == sid
  }

  /** What call `t` relies on in the container it works on. */
  predicate CallFits(o: Obj, t: Tid, c: Call)
    requires OnContainer(c)
  {
    match c
    case Creating(_, pc) => o.place == Building && o.creator == t && CreateFits(o, pc)
    case Starting(_, pc) => Listed(o.place) && (pc != Guard ==> o.lock == Some(t) && StartFits(o, pc))
    case Stopping(_, _, pc, _) => Listed(o.place) && (pc != ReadState ==> o.status.startedAt != 0)
    case Removing(_, pc, _) => Listed(o.place) && (pc != SetRemovingPc ==> o.remover == Some(t) && RemoveFits(o, pc))
  }

  /** What call `t` relies on elsewhere: its lists of containers and its sandbox. */
  ghost predicate ListsFit(w: World, t: Tid, c: Call) {
    match c
    case Creating(_, _) => true
    case Starting(_, _) => true
    case Stopping(id, _, _, up) => StopUpOk(w, id, up)
    case Removing(id, _, up) => RemoveUpOk(w, id, up)
    case RunningSb(sid, _) => sid in w.sbs && w.sbs[sid].place == Building && w.sbs[sid].creator == t
    case StoppingSb(sid, listed, next, seen, pc) =>
      KnownSb(w, sid) && SeenOk(w, sid, listed, next, seen) && (pc != SbList && pc != SbLoop ==> next == |listed|)
    case RemovingSb(sid, listed, next, pc) =>
      && KnownSb(w, sid) && ListedOk(w, sid, listed, next)
      && (pc == RsRootDir || pc == RsCtr || pc == RsDelete || pc == RsRelease ==> next == |listed|)
      && (pc == RsRelease ==> w.sbs[sid].place == Removed)
    case Finished(out) => OutcomeOk(w, out)
  }

  ghost predicate OutcomeOk(w: World, out: Outcome) {
    match out
    case Failed => true
    case Plain => true
    case StopDone(id, saw) => Known(w, id) && (saw ==> RanAndExited(w.objs[id]))
    case SandboxStopped(sid, listed, seen) =>
      KnownSb(w, sid) && w.sbs[sid].task == NoTask && SeenOk(w, sid, listed, |listed|, seen)
    case SandboxRemoved(sid, listed) =>
      sid in w.sbs && w.sbs[sid].place == Removed && ListedOk(w, sid, listed, |listed|)
  }

  ghost predicate CallOk(w: World, t: Tid, c: Call) {
    && (OnContainer(c) ==> c.id in w.objs && CallFits(w.objs[c.id], t, c))
    && ListsFit(w, t, c)
  }

  // The calls that hold the lock, the creation and the `removing` flag of container `id`.

  predicate LockCall(c: Call, id: Id) {
    c.Starting? && c.id == id && c.spc != Guard
  }

  predicate CreateCall(c: Call, id: Id) {
    c.Creating? && c.id == id
  }

  predicate RemoveCall(c: Call, id: Id) {
    c.Removing? && c.id == id && c.rpc != SetRemovingPc
  }

  /** A held lock, an unfinished creation and a `removing` flag each belong to a call that is still at it. */
  ghost predicate OwnersOk(w: World, id: Id)
    requires id in w.objs
  {
    var o := w.objs[id];
    && (o.lock.Some? ==> o.lock.value in w.calls && LockCall(w.calls[o.lock.value], id))
    && (o.place == Building ==> o.creator in w.calls && CreateCall(w.calls[o.creator], id))
    && (o.remover.Some? && o.place != Removed ==>
          o.remover.value in w.calls && RemoveCall(w.calls[o.remover.value], id))
  }

  // --------------------------------------------------------------- events

  /** `ev` is the exit of the init process of container `id`. */
  predicate IsExitOf(w: World, id: Id, ev: Event) {
    ev.ExitEvent? && ev.id == id && id in w.objs && ev.pid == w.objs[id].initPid
  }

  predicate Handling(w: World) {
    w.monitor.Got? || w.monitor.Found? || w.monitor.Matched? || w.monitor.Deleted?
  }

  /** The exit of `id` is queued or in the hands of the monitor. */
  ghost predicate Pending(w: World, id: Id) {
    || (exists i :: 0 <= i < |w.queue| && IsExitOf(w, id, w.queue[i]))
    || (Handling(w) && IsExitOf(w, id, w.monitor.ev))
  }

  predicate EventOk(w: World, ev: Event) {
    && (ev.id in w.objs || ev.id in w.sbs)
    && (ev.ExitEvent? ==> ev.pid != 0 && ev.code < 0x1_0000_0000)
    && (ev.ExitEvent? && ev.id in w.objs ==> w.objs[ev.id].initPid != 0)
    && (IsExitOf(w, ev.id, ev) ==> w.objs[ev.id].exit == Some(Exit(ev.code, ev.at)))
  }

  predicate MonitorOk(w: World) {
    && (Handling(w) ==> EventOk(w, w.monitor.ev))
    && (w.monitor.Found? ==> Known(w, w.monitor.ev.id))
    && (w.monitor.Matched? || w.monitor.Deleted? ==>
          && w.monitor.ev.ExitEvent? && w.monitor.ev.id in w.objs
          && w.objs[w.monitor.ev.id].status.State() == RUNNING
          && w.objs[w.monitor.ev.id].status.pid == w.monitor.ev.pid
          && !w.objs[w.monitor.ev.id].dropped)
  }

  /** No exit is lost: while it matters and was not given up, it is pending. */
  ghost predicate ExitOk(w: World, id: Id)
    requires id in w.objs
  {
    var o := w.objs[id];
    (o.status.State() == RUNNING || o.lock.Some?) && o.exit.Some? && !o.dropped ==> Pending(w, id)
  }

  /** Each init process reports its exit once, and a report given up does not come back. */
  ghost predicate OnceOk(w: World) {
    && (forall i, j :: 0 <= i < j < |w.queue| && IsExitOf(w, w.queue[i].id, w.queue[i]) ==>
          !IsExitOf(w, w.queue[i].id, w.queue[j]))
    && (Handling(w) && IsExitOf(w, w.monitor.ev.id, w.monitor.ev) ==>
          forall i :: 0 <= i < |w.queue| ==> !IsExitOf(w, w.monitor.ev.id, w.queue[i]))
    && (forall id :: id in w.objs && w.objs[id].dropped ==> !Pending(w, id))
  }

  // ---------------------------------------------------------------- names

  /** A container name in the index belongs to a stored container or to a call that will add or release it. */
  ghost predicate NameHeld(w: World, id: Id)
    requires id in w.names.keyToName
  {
    && id in w.objs && w.names.keyToName[id] == w.objs[id].name
    && (|| w.objs[id].place == Stored
        || (w.objs[id].place == Building && w.objs[id].creator in w.calls
            && w.calls[w.objs[id].creator].Creating? && w.calls[w.objs[id].creator].id == id
            && w.calls[w.objs[id].creator].cpc != ReserveName)
        || (w.objs[id].place == Removed && w.objs[id].remover.Some? && w.objs[id].remover.value in w.calls
            && w.calls[w.objs[id].remover.value].Removing? && w.calls[w.objs[id].remover.value].id == id
            && w.calls[w.objs[id].remover.value].rpc == Release))
  }

  ghost predicate NamesOk(w: World) {
    && w.names.Inverse()
    && (forall id :: id in w.names.keyToName ==> NameHeld(w, id))
    && (forall id :: id in w.objs && w.objs[id].place == Stored ==> id in w.names.keyToName)
    && (forall t :: t in w.calls && w.calls[t].Creating? && w.calls[t].cpc != ReserveName ==>
          w.calls[t].id in w.names.keyToName)
    && (forall t :: t in w.calls && w.calls[t].Removing? && w.calls[t].rpc == Release ==>
          w.calls[t].id in w.names.keyToName)
  }

  ghost predicate SbNameHeld(w: World, sid: Id)
    requires sid in w.sbNames.keyToName
  {
    && sid in w.sbs && w.sbNames.keyToName[sid] == w.sbs[sid].name
    && (|| w.sbs[sid].place == Stored
        || (w.sbs[sid].place == Building && w.sbs[sid].creator in w.calls
            && w.calls[w.sbs[sid].creator].RunningSb? && w.calls[w.sbs[sid].creator].sid == sid
            && w.calls[w.sbs[sid].creator].npc != RunReserve)
        || (w.sbs[sid].place == Removed && w.sbs[sid].remover in w.calls
            && w.calls[w.sbs[sid].remover].RemovingSb? && w.calls[w.sbs[sid].remover].sid == sid
            && w.calls[w.sbs[sid].remover].mpc == RsRelease))
  }

  ghost predicate SbNamesOk(w: World) {
    && w.sbNames.Inverse()
    && (forall sid :: sid in w.sbNames.keyToName ==> SbNameHeld(w, sid))
    && (forall sid :: sid in w.sbs && w.sbs[sid].place == Stored ==> sid in w.sbNames.keyToName)
    && (forall t :: t in w.calls && w.calls[t].RunningSb? && w.calls[t].npc != RunReserve ==>
          w.calls[t].sid in w.sbNames.keyToName)
    && (forall t :: t in w.calls && w.calls[t].Finished? && w.calls[t].out.SandboxRemoved? ==>
          w.calls[t].out.sid !in w.sbNames.keyToName)
  }

  // ------------------------------------------------------------------ all

  ghost predicate ObjsOk(w: World) {
    && w.objs.Keys !! w.sbs.Keys
    && (forall id :: id in w.objs ==> ObjOk(w.objs[id]))
    && (forall id :: id in w.objs ==> OwnersOk(w, id))
  }

  ghost predicate CallsOk(w: World) {
    forall t :: t in w.calls ==> CallOk(w, t, w.calls[t])
  }

  ghost predicate EventsOk(w: World) {
    && (forall i :: 0 <= i < |w.queue| ==> EventOk(w, w.queue[i]))
    && MonitorOk(w)
    && (forall id :: id in w.objs ==> ExitOk(w, id))
  }

  ghost predicate Inv(w: World) {
    ObjsOk(w) && CallsOk(w) && EventsOk(w) && OnceOk(w) && NamesOk(w) && SbNamesOk(w)
  }
}
