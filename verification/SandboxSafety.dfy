/**
Results about sandboxes and about the name indexes: a stopped sandbox starts
no container, a removed one has taken its containers with it, and names and
stores agree.
*/
module SandboxSafety {
  import opened Wrappers
  import opened ContainerStatus
  import opened Service
  import opened ServiceInv
  import opened ServiceProof
  import opened ServiceSafety

  // ------------------------------------------- stopping is final for starts

  /** A start that found no sandbox task has nowhere to go but the failure. */
  predicate EarlyPc(pc: StartPc) {
    pc == SandboxGet || pc == SandboxTask || pc == CommitFailure
  }

  /** The sandbox has no task and container `id`, if it belongs to it, has never got one. */
  ghost predicate NeverRuns(w: World, sid: Id, id: Id) {
    && KnownSb(w, sid) && w.sbs[sid].task == NoTask
    && (id in w.objs && w.objs[id].sandbox == sid ==>
          && w.objs[id].initPid == 0
          && (forall t :: t in w.calls && LockCall(w.calls[t], id) ==> EarlyPc(w.calls[t].spc)))
  }

  lemma StartStaysEarly(o: Obj, names: Index, t: Tid, id: Id, sb: Sandbox, pc: StartPc, c: Choice)
    requires sb.task == NoTask && o.initPid == 0 && (pc == Guard || EarlyPc(pc))
    requires StartStep(o, names, t, id, Some(sb), pc, c).Some?
    ensures var d := StartStep(o, names, t, id, Some(sb), pc, c).value;
            d.obj.initPid == 0 && (d.call.Starting? ==> EarlyPc(d.call.spc))
  {
  }

  lemma OthersKeepPid(o: Obj, names: Index, t: Tid, id: Id, cpc: CreatePc, rpc: RemovePc, up: Up, c: Choice)
    ensures var d := CreateStep(o, names, id, cpc, c);
            d.Some? ==> d.value.obj.initPid == o.initPid && !d.value.call.Starting?
    ensures var d := RemoveStep(o, names, t, id, rpc, up, c);
            d.Some? ==> d.value.obj.initPid == o.initPid && !d.value.call.Starting?
  {
  }

  lemma ContainerStaysEarly(w: World, t: Tid, call: Call, c: Choice, sid: Id)
    requires OnContainer(call) && call.id in w.objs && w.objs[call.id].sandbox == sid
    requires sid in w.sbs && w.sbs[sid].task == NoTask && w.objs[call.id].initPid == 0
    requires LockCall(call, call.id) ==> EarlyPc(call.spc)
    requires ContainerStep(w, t, call, c).Some?
    ensures var d := ContainerStep(w, t, call, c).value;
            d.obj.initPid == 0 && (d.call.Starting? ==> EarlyPc(d.call.spc))
  {
    hide CreateStep, StartStep, RemoveStep;
    var o := w.objs[call.id];
    match call
    case Creating(id, pc) => OthersKeepPid(o, w.names, t, id, pc, Reset, Top, c);
    case Starting(id, pc) => StartStaysEarly(o, w.names, t, id, w.sbs[sid], pc, c);
    case Stopping(_, _, _, _) =>
    case Removing(id, pc, up) => OthersKeepPid(o, w.names, t, id, Build, pc, up, c);
  }

  lemma ContainerNextId(w: World, t: Tid, call: Call, c: Choice)
    requires OnContainer(call) && call.id in w.objs && ContainerStep(w, t, call, c).Some?
    ensures var d := ContainerStep(w, t, call, c).value; d.call.Starting? ==> d.call.id == call.id
  {
  }

  lemma SandboxNeverStarts(w: World, t: Tid, call: Call, c: Choice)
    requires OnSandbox(call) && call.sid in w.sbs && SandboxStep(w, t, call, c).Some?
    ensures !SandboxStep(w, t, call, c).value.call.Starting?
  {
  }

  lemma GoNeverRuns(w: World, t: Tid, c: Choice, sid: Id, id: Id)
    requires ObjsOk(w) && CallsOk(w) && NeverRuns(w, sid, id) && CallStep(w, t, c).Some?
    ensures NeverRuns(CallStep(w, t, c).value, sid, id)
  {
    var w2 := CallStep(w, t, c).value;
    var call := w.calls[t];
    if OnContainer(call) {
      ContainerCore(w, t, c);
      ContainerNextId(w, t, call, c);
      if call.id == id && w.objs[id].sandbox == sid {
        ContainerStaysEarly(w, t, call, c, sid);
      }
      hide ObjsOk, CallsOk, ContainerStep, ObjOk, CallFits;
    } else {
      SandboxCore(w, t, c);
      SandboxNeverStarts(w, t, call, c);
      hide ObjsOk, CallsOk, SandboxStep;
    }
  }

  lemma HandleKeepsPid(o: Obj, m: Monitor, c: Choice)
    requires (m.Found? || m.Matched? || m.Deleted?) && HandleStep(o, m, c).Some?
    ensures var o2 := HandleStep(o, m, c).value.obj; o2.initPid == o.initPid && o2.sandbox == o.sandbox
  {
  }

  /** Neither the monitor nor a process gives a container a task, or a sandbox one. */
  lemma OtherNeverRuns(w: World, a: Action, sid: Id, id: Id)
    requires CallsOk(w) && NeverRuns(w, sid, id) && Next(w, a).Some? && !a.Go?
    ensures NeverRuns(Next(w, a).value, sid, id)
  {
    hide CallsOk;
    match a
    case Begin(t, req) => BeginNeverRuns(w, t, req, sid, id);
    case MonitorGo(c) =>
      if Handling(w) && !w.monitor.Got? && w.monitor.ev.id in w.objs {
        HandleKeepsPid(w.objs[w.monitor.ev.id], w.monitor, c);
      }
      hide HandleStep;
    case TaskExits(_, _, _) =>
    case OtherExits(_, _, _, _) =>
    case Oom(_) =>
    case SandboxExits(_) =>
  }

  lemma BeginNeverRuns(w: World, t: Tid, req: Request, sid: Id, id: Id)
    requires CallsOk(w) && NeverRuns(w, sid, id) && BeginStep(w, t, req).Some?
    ensures NeverRuns(BeginStep(w, t, req).value, sid, id)
  {
    forall u | u in w.calls && LockCall(w.calls[u], id)
      ensures id in w.objs
    {
      assert CallOk(w, u, w.calls[u]);
    }
    hide CallsOk;
  }

  lemma StepNeverRuns(w: World, a: Action, sid: Id, id: Id)
    requires Inv(w) && NeverRuns(w, sid, id) && Next(w, a).Some?
    ensures NeverRuns(Next(w, a).value, sid, id)
  {
    hide NeverRuns, CallStep, ObjsOk, CallsOk, EventsOk, OnceOk, NamesOk, SbNamesOk;
    if a.Go? {
      GoNeverRuns(w, a.t, a.c, sid, id);
    } else {
      hide Next;
      OtherNeverRuns(w, a, sid, id);
    }
  }

  lemma {:induction false} RunNeverRuns(w: World, schedule: seq<Action>, sid: Id, id: Id)
    requires Inv(w) && NeverRuns(w, sid, id) && Run(w, schedule).Some?
    ensures NeverRuns(Run(w, schedule).value, sid, id)
    decreases |schedule|
  {
    hide Inv, NeverRuns, Next;
    if schedule != [] {
      StepKeepsInv(w, schedule[0]);
      StepNeverRuns(w, schedule[0], sid, id);
      RunNeverRuns(Next(w, schedule[0]).value, schedule[1..], sid, id);
    }
  }

  /**
  Sandbox stop is final for starts.  Once StopPodSandbox has returned nil,
  a container of that sandbox whose start had not got past its guards by then,
  or that did not exist yet, never runs and never gets a task: a start of it that
  gets past its guards ends with the container exited with code 128.
  */
  lemma StopIsFinalForStarts(w: World, schedule: seq<Action>, t: Tid, sid: Id, listed: seq<Id>, seen: Seen, id: Id)
    requires Reachable(w) && t in w.calls && w.calls[t] == Finished(SandboxStopped(sid, listed, seen))
    requires id in w.objs ==> w.objs[id].starts == 0
    requires Run(w, schedule).Some?
    requires var w2 := Run(w, schedule).value; id in w2.objs && w2.objs[id].sandbox == sid
    ensures var o := Run(w, schedule).value.objs[id];
      && o.tasks == 0 && o.status.State() != RUNNING
      && (o.status.State() == EXITED ==> o.status.exitCode == ERROR_START_EXIT_CODE && o.status.startedAt == 0)
      && (o.starts == 1 && o.lock.None? ==> o.status.State() == EXITED && o.status.exitCode == ERROR_START_EXIT_CODE)
  {
    ReachableOk(w);
    hide Reachable, NeverRuns, Inv, Run;
    StoppedNeverRuns(w, t, sid, listed, seen, id);
    RunNeverRuns(w, schedule, sid, id);
    RunKeepsInv(w, schedule);
    NeverRan(Run(w, schedule).value, sid, id);
  }

  /** A sandbox that has been stopped has no task, and no start that began before is past its guards. */
  lemma StoppedNeverRuns(w: World, t: Tid, sid: Id, listed: seq<Id>, seen: Seen, id: Id)
    requires Inv(w) && t in w.calls && w.calls[t] == Finished(SandboxStopped(sid, listed, seen))
    requires id in w.objs ==> w.objs[id].starts == 0
    ensures NeverRuns(w, sid, id)
  {
    hide EventsOk, OnceOk, NamesOk, SbNamesOk, RemovalOk;
    assert CallOk(w, t, w.calls[t]);
    if id in w.objs {
      assert LifeOk(w.objs[id]);
      forall u | u in w.calls
        ensures !LockCall(w.calls[u], id)
      {
        assert CallOk(w, u, w.calls[u]);
      }
    }
  }

  lemma NeverRan(w: World, sid: Id, id: Id)
    requires Inv(w) && NeverRuns(w, sid, id) && id in w.objs && w.objs[id].sandbox == sid
    ensures var o := w.objs[id];
      && o.tasks == 0 && o.status.State() != RUNNING
      && (o.status.State() == EXITED ==> o.status.exitCode == ERROR_START_EXIT_CODE && o.status.startedAt == 0)
      && (o.starts == 1 && o.lock.None? ==> o.status.State() == EXITED && o.status.exitCode == ERROR_START_EXIT_CODE)
  {
    hide CallsOk, EventsOk, OnceOk, NamesOk, SbNamesOk, OwnersOk;
    assert ObjOk(w.objs[id]);
  }

  // ------------------------------------------------------ sandbox removal

  /** What a sandbox call walks over is the whole container store at its List step. */
  lemma ListsWholeStore(w: World, t: Tid, c: Choice)
    requires t in w.calls && Next(w, Go(t, c)).Some?
    requires var call := w.calls[t];
      (call.RemovingSb? && call.mpc == RsList) || (call.StoppingSb? && call.opc == SbList)
    ensures var call := Next(w, Go(t, c)).value.calls[t];
            (call.RemovingSb? || call.StoppingSb?) && (set id | id in call.listed) == Store(w)
  {
    assert forall id :: id in c.order <==> id in Store(w);
  }

  /** The sandbox for which call `c` removes containers, if it does so for one. */
  predicate RemovesFor(c: Call, sid: Id) {
    || (c.RemovingSb? && c.sid == sid)
    || (c.Removing? && c.up.RemoveLoop? && c.up.sid == sid)
  }

  /** RemovePodSandbox takes no container of another sandbox out of the store. */
  lemma RemovesOnlyItsOwn(w: World, t: Tid, c: Choice, sid: Id, id: Id)
    requires Reachable(w) && t in w.calls && RemovesFor(w.calls[t], sid) && Next(w, Go(t, c)).Some?
    requires id in Store(w) && id !in Store(Next(w, Go(t, c)).value)
    ensures w.objs[id].sandbox == sid
  {
    ReachableOk(w);
    hide Inv, Next, Reachable;
    if w.calls[t].Removing? {
      OwnContainer(w, t, sid);
    }
    GoTouches(w, t, c);
  }

  lemma OwnContainer(w: World, t: Tid, sid: Id)
    requires Inv(w) && t in w.calls && w.calls[t].Removing? && RemovesFor(w.calls[t], sid)
    ensures w.calls[t].id in w.objs && w.objs[w.calls[t].id].sandbox == sid
  {
    hide ObjsOk, EventsOk, OnceOk, NamesOk, SbNamesOk, ListedOk, CallFits;
    assert CallOk(w, t, w.calls[t]);
  }

  /** A step of a call changes at most the container that the call works on. */
  lemma GoTouches(w: World, t: Tid, c: Choice)
    requires t in w.calls && Next(w, Go(t, c)).Some?
    ensures var w2 := Next(w, Go(t, c)).value;
      && (OnSandbox(w.calls[t]) ==> w2.objs == w.objs)
      && (OnContainer(w.calls[t]) ==>
            forall x :: x in w.objs && x != w.calls[t].id ==> x in w2.objs && w2.objs[x] == w.objs[x])
  {
    hide ContainerStep, SandboxStep;
  }

  /** A RemoveContainer of `id` stands between deleting the store entry and releasing the name. */
  ghost predicate InReleaseWindow(w: World, id: Id) {
    exists t :: t in w.calls && w.calls[t].Removing? && w.calls[t].id == id && w.calls[t].rpc == Release
  }

  lemma LingersExactlyInWindow(w: World, id: Id)
    requires NamesOk(w) && id in w.objs && w.objs[id].place == Removed
    ensures id in w.names.keyToName <==> InReleaseWindow(w, id)
  {
    if id in w.names.keyToName {
      assert NameHeld(w, id);
    }
  }

  lemma RemovedFacts(w: World, t: Tid, sid: Id, listed: seq<Id>)
    requires CallsOk(w) && SbNamesOk(w) && t in w.calls && w.calls[t] == Finished(SandboxRemoved(sid, listed))
    ensures sid !in SandboxStore(w) && sid !in w.sbNames.keyToName
    ensures forall i :: 0 <= i < |listed| ==> Known(w, listed[i])
    ensures forall i :: 0 <= i < |listed| && w.objs[listed[i]].sandbox == sid ==> w.objs[listed[i]].place == Removed
  {
    assert CallOk(w, t, w.calls[t]);
    hide SbNameHeld;
  }

  /**
  What a RemovePodSandbox that answers success stands for, in this and in every
  later state: the sandbox and its name are gone, and so is every listed
  container of it, whose name lingers exactly while another RemoveContainer of
  it is about to release it.
  */
  lemma FinishedRemoval(w: World, schedule: seq<Action>, t: Tid, sid: Id, listed: seq<Id>, id: Id)
    requires Reachable(w) && t in w.calls && w.calls[t] == Finished(SandboxRemoved(sid, listed))
    requires id in listed && id in w.objs && w.objs[id].sandbox == sid && Run(w, schedule).Some?
    ensures var w2 := Run(w, schedule).value;
      && sid !in SandboxStore(w2) && sid !in w2.sbNames.keyToName
      && id !in Store(w2) && (id in w2.names.keyToName <==> InReleaseWindow(w2, id))
  {
    ReachableOk(w);
    RunKeepsInv(w, schedule);
    RunFinished(w, schedule, t);
    RunLater(w, schedule, id);
    var w2 := Run(w, schedule).value;
    hide ObjsOk, CallsOk, EventsOk, OnceOk, NamesOk, SbNamesOk, Run, Reachable;
    RemovedFacts(w2, t, sid, listed);
    LingersExactlyInWindow(w2, id);
  }

  /** A finished call stays finished. */
  lemma {:induction false} RunFinished(w: World, schedule: seq<Action>, t: Tid)
    requires t in w.calls && w.calls[t].Finished? && Run(w, schedule).Some?
    ensures t in Run(w, schedule).value.calls && Run(w, schedule).value.calls[t] == w.calls[t]
    decreases |schedule|
  {
    if schedule != [] {
      StepFinished(w, schedule[0], t);
      hide Next;
      RunFinished(Next(w, schedule[0]).value, schedule[1..], t);
    }
  }

  lemma StepFinished(w: World, a: Action, t: Tid)
    requires t in w.calls && w.calls[t].Finished? && Next(w, a).Some?
    ensures t in Next(w, a).value.calls && Next(w, a).value.calls[t] == w.calls[t]
  {
    hide ContainerStep, SandboxStep, FirstCall, HandleStep;
  }

  // ---------------------------------------------------------------- names

  /** The index maps are inverse, every stored container holds its reservation, and no two share a name. */
  lemma NamesAgree(w: World)
    requires Reachable(w)
    ensures w.names.Inverse() && w.sbNames.Inverse()
    ensures forall id :: id in Store(w) ==> (w.objs[id].name, id) in w.names.nameToKey.Items
    ensures forall sid :: sid in SandboxStore(w) ==> (w.sbs[sid].name, sid) in w.sbNames.nameToKey.Items
    ensures forall x, y :: x in Store(w) && y in Store(w) && w.objs[x].name == w.objs[y].name ==> x == y
    ensures forall x, y :: x in SandboxStore(w) && y in SandboxStore(w) && w.sbs[x].name == w.sbs[y].name ==> x == y
  {
    ReachableOk(w);
    hide ObjsOk, CallsOk, EventsOk, OnceOk, Reachable;
    forall id | id in Store(w)
      ensures id in w.names.keyToName && w.names.keyToName[id] == w.objs[id].name
      ensures (w.objs[id].name, id) in w.names.nameToKey.Items
    {
      assert NameHeld(w, id);
    }
    forall sid | sid in SandboxStore(w)
      ensures sid in w.sbNames.keyToName && w.sbNames.keyToName[sid] == w.sbs[sid].name
      ensures (w.sbs[sid].name, sid) in w.sbNames.nameToKey.Items
    {
      assert SbNameHeld(w, sid);
    }
  }

  /** No leaked names: with no call in flight, the reserved ids are exactly the stored ones. */
  lemma NoLeakedNames(w: World)
    requires Reachable(w) && forall t :: t in w.calls ==> w.calls[t].Finished?
    ensures w.names.keyToName.Keys == Store(w)
    ensures w.sbNames.keyToName.Keys == SandboxStore(w)
  {
    ReachableOk(w);
    hide ObjsOk, CallsOk, EventsOk, OnceOk, NamesOk, SbNamesOk, Reachable;
    NoLeakedContainerNames(w);
    NoLeakedSandboxNames(w);
  }

  lemma NoLeakedContainerNames(w: World)
    requires NamesOk(w) && forall t :: t in w.calls ==> w.calls[t].Finished?
    ensures w.names.keyToName.Keys == Store(w)
  {
    forall id | id in w.names.keyToName
      ensures id in Store(w)
    {
      assert NameHeld(w, id);
    }
  }

  lemma NoLeakedSandboxNames(w: World)
    requires SbNamesOk(w) && forall t :: t in w.calls ==> w.calls[t].Finished?
    ensures w.sbNames.keyToName.Keys == SandboxStore(w)
  {
    forall sid | sid in w.sbNames.keyToName
      ensures sid in SandboxStore(w)
    {
      assert SbNameHeld(w, sid);
    }
  }
}
