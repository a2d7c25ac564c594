/**
No exit is lost but by a failed deletion: what becomes of the exit of a
container, in every reachable state and along every run.
*/
module ExitSafety {
  import opened Wrappers
  import opened ContainerStatus
  import opened Service
  import opened ServiceInv
  import opened ServiceSafety

  // ------------------------------------------------- handling one exit event

  /** Once the task is deleted or found missing, handling the event records exactly the exit of the init process. */
  lemma HandledExitIsRecorded(w: World, c: Choice)
    requires Reachable(w) && w.monitor.Deleted?
    ensures var ev := w.monitor.ev;
      && IsExitOf(w, ev.id, ev) && w.objs[ev.id].exit == Some(Exit(ev.code, ev.at))
      && Next(w, MonitorGo(c)).Some?
      && var st := Next(w, MonitorGo(c)).value.objs[ev.id].status;
         st.State() == EXITED && st.exitCode == ToInt32(ev.code) && st.finishedAt == ev.at && st.pid == 0
  {
    ReachableOk(w);
    hide Inv, Reachable, Next, Run;
    MonitorFacts(w);
    DeletedNext(w, c);
  }

  /** The monitor handles the true exit of a container that runs. */
  lemma MonitorFacts(w: World)
    requires Inv(w) && (w.monitor.Matched? || w.monitor.Deleted?)
    ensures var ev := w.monitor.ev;
      && IsExitOf(w, ev.id, ev) && w.objs[ev.id].exit == Some(Exit(ev.code, ev.at))
      && ev.code < 0x1_0000_0000 && ev.at != 0
      && w.objs[ev.id].status.State() == RUNNING && w.objs[ev.id].lock.None? && !w.objs[ev.id].dropped
  {
    hide CallsOk, NamesOk, SbNamesOk, OnceOk, OwnersOk, ExitOk, RemovalOk;
    assert ObjOk(w.objs[w.monitor.ev.id]);
  }

  /** The two steps that follow once the event is known to be that of the init process. */
  lemma MatchedNext(w: World, c: Choice)
    requires w.monitor.Matched? && w.monitor.ev.id in w.objs && Next(w, MonitorGo(c)).Some?
    ensures var w2 := Next(w, MonitorGo(c)).value; var o := w.objs[w.monitor.ev.id];
      && w2.objs.Keys == w.objs.Keys && w2.queue == w.queue
      && w2.monitor == (if c.reply == Error then Idle else Deleted(w.monitor.ev))
      && w2.objs[w.monitor.ev.id] ==
        if c.reply == Error then o.(dropped := true, task := if c.effect then NoTask else o.task)
        else o.(task := NoTask)
  {
  }

  lemma DeletedNext(w: World, c: Choice)
    requires w.monitor.Deleted? && w.monitor.ev.id in w.objs
    requires w.monitor.ev.ExitEvent? && w.monitor.ev.code < 0x1_0000_0000
    requires w.objs[w.monitor.ev.id].lock.None?
    ensures Next(w, MonitorGo(c)).Some? && w.monitor.ev.id in Next(w, MonitorGo(c)).value.objs
    ensures Next(w, MonitorGo(c)).value.objs[w.monitor.ev.id].status ==
      RecordExit(w.objs[w.monitor.ev.id].status, w.monitor.ev.code, w.monitor.ev.at)
  {
  }

  // ------------------------------------------------------- when one is lost

  /** The container counts as running, its process has ended, and nobody will hear of it any more. */
  ghost predicate ExitLost(w: World, id: Id) {
    id in w.objs && w.objs[id].status.State() == RUNNING && w.objs[id].exit.Some? && !Pending(w, id)
  }

  /** The step in which the monitor fails to delete the task of `id`, with an error other than "not found". */
  predicate DeleteFails(w: World, a: Action, id: Id) {
    a.MonitorGo? && w.monitor.Matched? && w.monitor.ev.id == id && a.c.reply == Error
  }

  /** What the history flag stands for. */
  lemma LostIsDropped(w: World, id: Id)
    requires Inv(w)
    ensures ExitLost(w, id) <==> id in w.objs && w.objs[id].dropped
  {
    hide CallsOk, NamesOk, SbNamesOk, OwnersOk, EventOk, MonitorOk, Pending;
    if id in w.objs {
      assert ObjOk(w.objs[id]) && ExitOk(w, id);
    }
  }

  /** The container steps of calls leave the flag alone. */
  lemma CallsDropNothing(w: World, t: Tid, call: Call, c: Choice)
    requires OnContainer(call) && call.id in w.objs && ContainerStep(w, t, call, c).Some?
    ensures ContainerStep(w, t, call, c).value.obj.dropped == w.objs[call.id].dropped
  {
    var o := w.objs[call.id];
    hide StartStep, CreateStep, RemoveStep;
    match call
    case Creating(id, pc) => CreateDropsNothing(o, w.names, id, pc, c);
    case Starting(id, pc) =>
      StartDropsNothing(o, w.names, t, id, if o.sandbox in w.sbs then Some(w.sbs[o.sandbox]) else None, pc, c);
    case Stopping(_, _, _, _) =>
    case Removing(id, pc, up) => RemoveDropsNothing(o, w.names, t, id, pc, up, c);
  }

  lemma CreateDropsNothing(o: Obj, names: Index, id: Id, pc: CreatePc, c: Choice)
    requires CreateStep(o, names, id, pc, c).Some?
    ensures CreateStep(o, names, id, pc, c).value.obj.dropped == o.dropped
  {
  }

  lemma StartDropsNothing(o: Obj, names: Index, t: Tid, id: Id, sb: Option<Sandbox>, pc: StartPc, c: Choice)
    requires StartStep(o, names, t, id, sb, pc, c).Some?
    ensures StartStep(o, names, t, id, sb, pc, c).value.obj.dropped == o.dropped
  {
  }

  lemma RemoveDropsNothing(o: Obj, names: Index, t: Tid, id: Id, pc: RemovePc, up: Up, c: Choice)
    requires RemoveStep(o, names, t, id, pc, up, c).Some?
    ensures RemoveStep(o, names, t, id, pc, up, c).value.obj.dropped == o.dropped
  {
  }

  lemma HandleDrops(o: Obj, m: Monitor, c: Choice)
    requires (m.Found? || m.Matched? || m.Deleted?) && HandleStep(o, m, c).Some?
    ensures HandleStep(o, m, c).value.obj.dropped <==> o.dropped || (m.Matched? && c.reply == Error)
  {
  }

  /** The flag of `id`, false before the container exists. */
  predicate IsDropped(w: World, id: Id) {
    id in w.objs && w.objs[id].dropped
  }

  lemma MonitorDrops(w: World, c: Choice, id: Id)
    requires MonitorStep(w, c).Some? && (w.monitor.Matched? ==> w.monitor.ev.id in w.objs)
    ensures IsDropped(MonitorStep(w, c).value, id) <==>
      IsDropped(w, id) || (w.monitor.Matched? && w.monitor.ev.id == id && c.reply == Error)
  {
    if Handling(w) && !w.monitor.Got? && w.monitor.ev.id in w.objs {
      HandleDrops(w.objs[w.monitor.ev.id], w.monitor, c);
    }
    hide HandleStep;
  }

  lemma CallDropsNothing(w: World, t: Tid, c: Choice, id: Id)
    requires CallStep(w, t, c).Some?
    ensures IsDropped(CallStep(w, t, c).value, id) <==> IsDropped(w, id)
  {
    if OnContainer(w.calls[t]) {
      CallsDropNothing(w, t, w.calls[t], c);
    }
    hide ContainerStep, SandboxStep;
  }

  /** Only a failed deletion sets the flag. */
  lemma StepDrops(w: World, a: Action, id: Id)
    requires Inv(w) && Next(w, a).Some?
    ensures IsDropped(Next(w, a).value, id) <==> IsDropped(w, id) || DeleteFails(w, a, id)
  {
    hide Inv, BeginStep, CallStep, MonitorStep, EnvStep, IsDropped;
    if w.monitor.Matched? {
      MonitorFacts(w);
    }
    match a
    case Begin(t, req) => BeginDropsNothing(w, t, req, id);
    case Go(t, c) => CallDropsNothing(w, t, c, id);
    case MonitorGo(c) => MonitorDrops(w, c, id);
    case TaskExits(_, _, _) => EnvDropsNothing(w, a, id);
    case OtherExits(_, _, _, _) => EnvDropsNothing(w, a, id);
    case Oom(_) => EnvDropsNothing(w, a, id);
    case SandboxExits(_) => EnvDropsNothing(w, a, id);
  }

  lemma BeginDropsNothing(w: World, t: Tid, req: Request, id: Id)
    requires BeginStep(w, t, req).Some?
    ensures IsDropped(BeginStep(w, t, req).value, id) <==> IsDropped(w, id)
  {
    hide FirstCall;
  }

  lemma EnvDropsNothing(w: World, a: Action, id: Id)
    requires (a.TaskExits? || a.OtherExits? || a.Oom? || a.SandboxExits?) && EnvStep(w, a).Some?
    ensures IsDropped(EnvStep(w, a).value, id) <==> IsDropped(w, id)
  {
  }

  /**
  Over every step of every call, of the monitor and of the processes: an exit
  that was not lost before is lost by the step if and only if the step is a failed
  deletion of its task, with an error other than "not found".
  */
  lemma LostExactlyByFailedDelete(w: World, a: Action, id: Id)
    requires Reachable(w) && Next(w, a).Some?
    ensures ExitLost(Next(w, a).value, id) <==> ExitLost(w, id) || DeleteFails(w, a, id)
  {
    ReachableOk(w);
    StepLoses(w, a, id);
  }

  lemma StepLoses(w: World, a: Action, id: Id)
    requires Inv(w) && Next(w, a).Some?
    ensures ExitLost(Next(w, a).value, id) <==> ExitLost(w, id) || DeleteFails(w, a, id)
  {
    hide Inv, Next, ExitLost;
    StepKeepsInv(w, a);
    LostIsDropped(w, id);
    LostIsDropped(Next(w, a).value, id);
    StepDrops(w, a, id);
  }

  /** Some step of the run is a failed deletion of the task of `id`. */
  ghost predicate DeleteFailed(w: World, schedule: seq<Action>, id: Id) {
    exists k :: 0 <= k < |schedule| && DeleteFailsAt(w, schedule, id, k)
  }

  ghost predicate DeleteFailsAt(w: World, schedule: seq<Action>, id: Id, k: nat)
    requires k < |schedule|
  {
    var v := Run(w, schedule[..k]);
    v.Some? && DeleteFails(v.value, schedule[k], id)
  }

  lemma FailedNowOrLater(w: World, schedule: seq<Action>, id: Id)
    requires schedule != [] && Next(w, schedule[0]).Some?
    ensures DeleteFailed(w, schedule, id) <==>
      DeleteFails(w, schedule[0], id) || DeleteFailed(Next(w, schedule[0]).value, schedule[1..], id)
  {
    hide Next, DeleteFails;
    var w1, rest := Next(w, schedule[0]).value, schedule[1..];
    assert DeleteFailsAt(w, schedule, id, 0) <==> DeleteFails(w, schedule[0], id);
    forall k | 0 <= k < |rest|
      ensures DeleteFailsAt(w, schedule, id, k + 1) <==> DeleteFailsAt(w1, rest, id, k)
    {
      assert schedule[..k + 1][1..] == rest[..k];
    }
    hide DeleteFailsAt;
    if k :| 0 <= k < |schedule| && DeleteFailsAt(w, schedule, id, k) {
      assert k > 0 ==> DeleteFailsAt(w1, rest, id, k - 1);
    }
    if k :| 0 <= k < |rest| && DeleteFailsAt(w1, rest, id, k) {
      assert DeleteFailsAt(w, schedule, id, k + 1);
    }
  }

  lemma {:induction false} RunLoses(w: World, schedule: seq<Action>, id: Id)
    requires Inv(w) && Run(w, schedule).Some?
    ensures ExitLost(Run(w, schedule).value, id) <==> ExitLost(w, id) || DeleteFailed(w, schedule, id)
    decreases |schedule|
  {
    hide Inv, Next, ExitLost, DeleteFailed;
    if schedule == [] {
      NothingFailed(w, id);
    } else {
      StepKeepsInv(w, schedule[0]);
      StepLoses(w, schedule[0], id);
      FailedNowOrLater(w, schedule, id);
      RunLoses(Next(w, schedule[0]).value, schedule[1..], id);
    }
  }

  lemma NothingFailed(w: World, id: Id)
    ensures !DeleteFailed(w, [], id)
  {
  }

  // ---------------------------------------------------------------- results

  /**
  No lost exit.  After any run, a running container is in the store with the
  pid of its task; its task runs until it exits; and once it has exited, the exit
  is queued or being handled if and only if no step of the run was a failed
  deletion of its task.
  */
  lemma NoLostExit(schedule: seq<Action>, id: Id)
    requires Run(INIT, schedule).Some?
    requires var w := Run(INIT, schedule).value; id in w.objs && w.objs[id].status.State() == RUNNING
    ensures var w := Run(INIT, schedule).value; var o := w.objs[id];
      && InStore(w, id) && o.status.pid == o.initPid != 0
      && (o.exit.None? ==> o.task == Running)
      && (o.exit.Some? ==> (Pending(w, id) <==> !DeleteFailed(INIT, schedule, id)))
  {
    var w := Run(INIT, schedule).value;
    InitOk();
    assert !ExitLost(INIT, id);
    hide Run, DeleteFailed, Pending;
    RunKeepsInv(INIT, schedule);
    RunLoses(INIT, schedule, id);
    RunningIsStored(w, id);
    hide Inv;
  }

  lemma RunningIsStored(w: World, id: Id)
    requires Inv(w) && id in w.objs && w.objs[id].status.State() == RUNNING
    ensures InStore(w, id) && w.objs[id].status.pid == w.objs[id].initPid != 0
    ensures w.objs[id].exit.None? ==> w.objs[id].task == Running
  {
    hide CallsOk, EventsOk, OnceOk, NamesOk, SbNamesOk, OwnersOk;
    assert ObjOk(w.objs[id]);
  }

  /** With the queue drained and no deletion of its task failed, what the store calls running does run. */
  lemma DrainedMeansTrue(schedule: seq<Action>, id: Id)
    requires Run(INIT, schedule).Some? && !DeleteFailed(INIT, schedule, id)
    requires var w := Run(INIT, schedule).value;
      w.queue == [] && w.monitor == Idle && id in w.objs && w.objs[id].status.State() == RUNNING
    ensures Run(INIT, schedule).value.objs[id].task == Running
  {
    NoLostExit(schedule, id);
    hide Run, DeleteFailed;
  }

  /** An exit lost is lost for good: the container stays running, and in the store, for ever. */
  lemma GivenUpIsStuck(w: World, schedule: seq<Action>, id: Id)
    requires Reachable(w) && Run(w, schedule).Some? && ExitLost(w, id)
    ensures id in Store(Run(w, schedule).value) && ExitLost(Run(w, schedule).value, id)
  {
    ReachableOk(w);
    hide Inv, Reachable, Run, ExitLost, DeleteFailed;
    RunKeepsInv(w, schedule);
    RunLoses(w, schedule, id);
    LostIsStored(Run(w, schedule).value, id);
  }

  lemma LostIsStored(w: World, id: Id)
    requires Inv(w) && ExitLost(w, id)
    ensures id in Store(w)
  {
    hide Inv, Pending;
    RunningIsStored(w, id);
  }
}
