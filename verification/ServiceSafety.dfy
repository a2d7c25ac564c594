/**
The results: what holds in every reachable state of the service and along
every run, whatever the interleaving.
*/
module ServiceSafety {
  import opened Wrappers
  import opened ContainerStatus
  import opened Service
  import opened ServiceInv
  import opened ServiceProof
  import opened ServiceEvents
  import opened ServiceNames

  lemma InitOk()
    ensures Inv(INIT)
  {
  }

  lemma StepKeepsInv(w: World, a: Action)
    requires Inv(w) && Next(w, a).Some?
    ensures Inv(Next(w, a).value)
  {
    hide ObjsOk, CallsOk, EventsOk, OnceOk, NamesOk, SbNamesOk, Next;
    CoreKept(w, a);
    EventsKept(w, a);
    NamesKept(w, a);
  }

  lemma {:induction false} RunKeepsInv(w: World, schedule: seq<Action>)
    requires Inv(w) && Run(w, schedule).Some?
    ensures Inv(Run(w, schedule).value)
    decreases |schedule|
  {
    hide Inv, Next;
    if schedule != [] {
      StepKeepsInv(w, schedule[0]);
      RunKeepsInv(Next(w, schedule[0]).value, schedule[1..]);
    }
  }

  /** The invariant holds in every reachable state. */
  lemma ReachableOk(w: World)
    requires Reachable(w)
    ensures Inv(w)
  {
    InitOk();
    hide Inv;
    var schedule :| Run(INIT, schedule) == Some(w);
    RunKeepsInv(INIT, schedule);
  }

  // ------------------------------------------------------------- panics

  /** The monitor panics exactly on an OOM event whose container is not in the store. */
  lemma PanicsExactlyOnUnknownOom(w: World, a: Action)
    requires Next(w, a).Some?
    ensures Next(w, a).value.monitor.Panicked? <==>
      a.MonitorGo? && w.monitor.Got? && w.monitor.ev.OomEvent? && w.monitor.ev.id !in Store(w)
  {
    hide ContainerStep, SandboxStep, FirstCall;
  }

  /** What brings the monitor down is a sandbox, or a container not yet or no longer in the store. */
  lemma PanicIsAbout(w: World, a: Action)
    requires Reachable(w) && Next(w, a).Some? && Next(w, a).value.monitor.Panicked?
    ensures w.monitor.Got?
    ensures var id := w.monitor.ev.id; id in w.sbs || (id in w.objs && w.objs[id].place != Stored)
  {
    PanicsExactlyOnUnknownOom(w, a);
    ReachableOk(w);
    hide Next, ObjsOk, CallsOk, OnceOk, NamesOk, SbNamesOk, ExitOk;
  }

  // --------------------------------------------------- removal exclusion

  /**
  Removal exclusion.  At most one RemoveContainer is past setContainerRemoving;
  none is while the container runs or is being started; and a running
  container has its snapshot, its root directory and its containerd container.
  */
  lemma RemovalExclusion(w: World, id: Id)
    requires Reachable(w) && id in w.objs
    ensures forall t, u :: t in w.calls && u in w.calls && RemoveCall(w.calls[t], id) && RemoveCall(w.calls[u], id) ==>
      t == u
    ensures w.objs[id].status.State() == RUNNING || w.objs[id].lock.Some? ==>
      !w.objs[id].status.removing && forall t :: t in w.calls ==> !RemoveCall(w.calls[t], id)
    ensures w.objs[id].status.State() == RUNNING ==> w.objs[id].snapshot && w.objs[id].rootDir && w.objs[id].ctr
  {
    ReachableOk(w);
    hide EventsOk, OnceOk, NamesOk, SbNamesOk, OwnersOk, LifeOk, ListsFit, Reachable;
    var o := w.objs[id];
    assert RemovalOk(o);
    forall t | t in w.calls && RemoveCall(w.calls[t], id)
      ensures o.remover == Some(t)
    {
      assert CallOk(w, t, w.calls[t]);
    }
  }

  // ------------------------------------------------- forward-only lifecycle

  /** One container, one step later. */
  predicate Later(o: Obj, o2: Obj) {
    && Forward(o.status, o2.status)
    && o2.sandbox == o.sandbox && o2.name == o.name
    && o.starts <= o2.starts && o.tasks <= o2.tasks
    && (o.place == Removed ==> o2.place == Removed)
    && (Listed(o.place) ==> Listed(o2.place))
    && (o.dropped ==> o2.dropped)
  }

  lemma StartLater(o: Obj, names: Index, t: Tid, id: Id, sb: Option<Sandbox>, pc: StartPc, c: Choice)
    requires ObjOk(o) && CallFits(o, t, Starting(id, pc)) && StartStep(o, names, t, id, sb, pc, c).Some?
    ensures Later(o, StartStep(o, names, t, id, sb, pc, c).value.obj)
  {
  }

  lemma CreateLater(o: Obj, names: Index, t: Tid, id: Id, pc: CreatePc, c: Choice)
    requires ObjOk(o) && CallFits(o, t, Creating(id, pc)) && CreateStep(o, names, id, pc, c).Some?
    ensures Later(o, CreateStep(o, names, id, pc, c).value.obj)
  {
  }

  lemma RemoveLater(o: Obj, names: Index, t: Tid, id: Id, pc: RemovePc, up: Up, c: Choice)
    requires ObjOk(o) && CallFits(o, t, Removing(id, pc, up)) && RemoveStep(o, names, t, id, pc, up, c).Some?
    ensures Later(o, RemoveStep(o, names, t, id, pc, up, c).value.obj)
  {
  }

  lemma HandleLater(o: Obj, m: Monitor, c: Choice)
    requires ObjOk(o) && (m.Found? || m.Matched? || m.Deleted?) && HandleStep(o, m, c).Some?
    requires !m.Found? ==> HandlesExit(o, m.ev)
    ensures Later(o, HandleStep(o, m, c).value.obj)
  {
  }

  lemma ContainerLater(w: World, t: Tid, call: Call, c: Choice)
    requires OnContainer(call) && call.id in w.objs && ContainerStep(w, t, call, c).Some?
    requires ObjOk(w.objs[call.id]) && CallFits(w.objs[call.id], t, call)
    ensures Later(w.objs[call.id], ContainerStep(w, t, call, c).value.obj)
  {
    hide ObjOk, CallFits, CreateStep, StartStep, RemoveStep;
    var o := w.objs[call.id];
    match call
    case Creating(id, pc) => CreateLater(o, w.names, t, id, pc, c);
    case Starting(id, pc) =>
      StartLater(o, w.names, t, id, if o.sandbox in w.sbs then Some(w.sbs[o.sandbox]) else None, pc, c);
    case Stopping(_, _, _, _) =>
    case Removing(id, pc, up) => RemoveLater(o, w.names, t, id, pc, up, c);
  }

  lemma GoLater(w: World, t: Tid, c: Choice, id: Id)
    requires ObjsOk(w) && CallsOk(w) && CallStep(w, t, c).Some? && id in w.objs
    ensures id in CallStep(w, t, c).value.objs && Later(w.objs[id], CallStep(w, t, c).value.objs[id])
  {
    Focus(w, t);
    var call := w.calls[t];
    if OnContainer(call) {
      ContainerLater(w, t, call, c);
    }
    hide ObjsOk, CallsOk, ContainerStep, SandboxStep, ObjOk, CallOk, OwnersOk;
  }

  lemma MonitorLater(w: World, c: Choice, id: Id)
    requires ObjsOk(w) && EventsOk(w) && OnceOk(w) && MonitorStep(w, c).Some? && id in w.objs
    ensures id in MonitorStep(w, c).value.objs && Later(w.objs[id], MonitorStep(w, c).value.objs[id])
  {
    if Handling(w) && !w.monitor.Got? {
      HandleFacts(w);
      HandleLater(w.objs[w.monitor.ev.id], w.monitor, c);
    }
    hide ObjsOk, EventsOk, OnceOk, HandleStep, ObjOk;
  }

  lemma EnvLater(w: World, a: Action, id: Id)
    requires ObjsOk(w) && (a.TaskExits? || a.OtherExits? || a.Oom? || a.SandboxExits?)
    requires EnvStep(w, a).Some? && id in w.objs
    ensures id in EnvStep(w, a).value.objs && Later(w.objs[id], EnvStep(w, a).value.objs[id])
  {
    hide ObjsOk;
  }

  lemma BeginLater(w: World, t: Tid, req: Request, id: Id)
    requires BeginStep(w, t, req).Some? && id in w.objs
    ensures id in BeginStep(w, t, req).value.objs && Later(w.objs[id], BeginStep(w, t, req).value.objs[id])
  {
    hide FirstCall;
  }

  lemma StepLater(w: World, a: Action, id: Id)
    requires Inv(w) && Next(w, a).Some? && id in w.objs
    ensures id in Next(w, a).value.objs && Later(w.objs[id], Next(w, a).value.objs[id])
  {
    hide ObjsOk, CallsOk, EventsOk, OnceOk, NamesOk, SbNamesOk, Later, BeginStep, CallStep, MonitorStep, EnvStep;
    match a
    case Begin(t, req) => BeginLater(w, t, req, id);
    case Go(t, c) => GoLater(w, t, c, id);
    case MonitorGo(c) => MonitorLater(w, c, id);
    case TaskExits(_, _, _) => EnvLater(w, a, id);
    case OtherExits(_, _, _, _) => EnvLater(w, a, id);
    case Oom(_) => EnvLater(w, a, id);
    case SandboxExits(_) => EnvLater(w, a, id);
  }

  lemma LaterTransitive(a: Obj, b: Obj, c: Obj)
    requires Later(a, b) && Later(b, c)
    ensures Later(a, c)
  {
  }

  lemma {:induction false} RunLater(w: World, schedule: seq<Action>, id: Id)
    requires Inv(w) && Run(w, schedule).Some? && id in w.objs
    ensures id in Run(w, schedule).value.objs && Later(w.objs[id], Run(w, schedule).value.objs[id])
    decreases |schedule|
  {
    if schedule != [] {
      hide Inv, Later, Next;
      var w1 := Next(w, schedule[0]).value;
      StepKeepsInv(w, schedule[0]);
      StepLater(w, schedule[0], id);
      RunLater(w1, schedule[1..], id);
      LaterTransitive(w.objs[id], w1.objs[id], Run(w, schedule).value.objs[id]);
    }
  }

  /**
  Forward-only lifecycle.  From any reachable state, however the run goes on,
  the status moves only forward and is frozen by the exit; at any time the pid
  is nonzero exactly when the container runs, and startContainer has got past
  its guards at most once and has created at most one task.
  */
  lemma ForwardOnly(w: World, schedule: seq<Action>, id: Id)
    requires Reachable(w) && Run(w, schedule).Some? && id in w.objs
    ensures id in Run(w, schedule).value.objs
    ensures Forward(w.objs[id].status, Run(w, schedule).value.objs[id].status)
    ensures w.objs[id].status.pid != 0 <==> w.objs[id].status.State() == RUNNING
    ensures w.objs[id].tasks <= w.objs[id].starts <= 1
  {
    ReachableOk(w);
    RunLater(w, schedule, id);
    hide CallsOk, EventsOk, OnceOk, NamesOk, SbNamesOk, OwnersOk, Run, Reachable;
    assert ObjOk(w.objs[id]);
  }

  /** What is recorded of a container that has exited is true: the exit of its init process, or a start that failed. */
  lemma RecordedExitIsTrue(w: World, id: Id)
    requires Reachable(w) && id in w.objs && w.objs[id].status.State() == EXITED
    ensures var o := w.objs[id];
      if o.status.startedAt == 0 then o.status.exitCode == ERROR_START_EXIT_CODE
      else o.exit.Some? && o.exit.value.code < 0x1_0000_0000
           && o.status.exitCode == ToInt32(o.exit.value.code) && o.status.finishedAt == o.exit.value.at
  {
    ReachableOk(w);
    hide CallsOk, EventsOk, OnceOk, NamesOk, SbNamesOk, OwnersOk, Reachable;
    assert ObjOk(w.objs[id]);
  }

  // ------------------------------------------------------------- stopping

  /** What a stopContainer that answers "stopped" stands for, in this and in every later state. */
  lemma FinishedStop(w: World, schedule: seq<Action>, t: Tid, id: Id)
    requires Reachable(w) && t in w.calls && w.calls[t] == Finished(StopDone(id, true))
    requires Run(w, schedule).Some?
    ensures var w2 := Run(w, schedule).value; id in w2.objs && w2.objs[id].status.State() == EXITED
  {
    ReachableOk(w);
    OutcomeHolds(w, t);
    hide Inv, Reachable, Run;
    RunLater(w, schedule, id);
  }

  /** What a finished call has made sure of. */
  lemma OutcomeHolds(w: World, t: Tid)
    requires Inv(w) && t in w.calls && w.calls[t].Finished?
    ensures OutcomeOk(w, w.calls[t].out)
  {
    hide ObjsOk, EventsOk, OnceOk, NamesOk, SbNamesOk, CallFits, OutcomeOk;
    assert CallOk(w, t, w.calls[t]);
  }

  /** The same for StopPodSandbox and the containers on its list. */
  lemma FinishedSandboxStop(w: World, schedule: seq<Action>, t: Tid, sid: Id, listed: seq<Id>, seen: Seen, id: Id)
    requires Reachable(w) && t in w.calls && w.calls[t] == Finished(SandboxStopped(sid, listed, seen))
    requires id in listed && id in w.objs && w.objs[id].sandbox == sid && Run(w, schedule).Some?
    ensures id in seen.running || id in seen.idle
    ensures id in seen.running ==>
      var w2 := Run(w, schedule).value; id in w2.objs && w2.objs[id].status.State() == EXITED
  {
    ReachableOk(w);
    OutcomeHolds(w, t);
    hide Inv, Reachable, Run;
    RunLater(w, schedule, id);
  }

  // ------------------------------------------------------- extending runs

  lemma {:induction false} RunAppend(w: World, schedule: seq<Action>, a: Action)
    requires Run(w, schedule).Some? && Next(Run(w, schedule).value, a).Some?
    ensures Run(w, schedule + [a]) == Next(Run(w, schedule).value, a)
    decreases |schedule|
  {
    hide Next;
    if schedule == [] {
      assert schedule + [a] == [a];
      assert Run(Next(w, a).value, [a][1..]) == Next(w, a);
    } else {
      assert (schedule + [a])[1..] == schedule[1..] + [a];
      RunAppend(Next(w, schedule[0]).value, schedule[1..], a);
    }
  }

  lemma {:induction false} RunReachable(w: World, schedule: seq<Action>)
    requires Reachable(w) && Run(w, schedule).Some?
    ensures Reachable(Run(w, schedule).value)
    decreases |schedule|
  {
    hide Next, Reachable;
    if schedule != [] {
      Extend(w, schedule[0]);
      RunReachable(Next(w, schedule[0]).value, schedule[1..]);
    }
  }

  lemma Extend(w: World, a: Action)
    requires Reachable(w) && Next(w, a).Some?
    ensures Reachable(Next(w, a).value)
  {
    hide Next;
    var schedule :| Run(INIT, schedule) == Some(w);
    RunAppend(INIT, schedule, a);
  }
}
