/**
The handlers as they are written: methods that update the stores, the name
index and the status cells in place and call out to containerd.  A call on one
container, and the event handler, run without interruption here and are shown
to take the steps of the step system one after the other, so that what is
proved of all runs of that system is about this code.
*/
module Handlers {
  import opened Wrappers
  import opened ContainerStatus
  import opened Service
  import opened Stores
  import opened HandlerSteps
  import opened ContainerdApi
  import opened RemovalLoop
  import Registrar

  /** The choice that a step of the step system makes when a deletion goes as `out` says. */
  function ChoiceOf(reply: Reply, out: Deletion): Choice {
    Choice(reply, out.Fails? && out.effect, 0, 0, "", [])
  }

  class Daemon {
    const containerStore: Store<Container>
    const containerNameIndex: Registrar.Registrar
    const sandboxStore: Store<string>
    const sandboxNameIndex: Registrar.Registrar
    const containerd: Containerd

    constructor ()
      ensures containerStore.entries == map[] && sandboxStore.entries == map[]
      ensures containerNameIndex.Contents() == sandboxNameIndex.Contents() == Registrar.EMPTY
      ensures containerNameIndex != sandboxNameIndex
    {
      containerStore := new Store();
      containerNameIndex := new Registrar.Registrar();
      sandboxStore := new Store();
      sandboxNameIndex := new Registrar.Registrar();
      containerd := new Containerd();
    }

    /** The heap shows container `id`, with its status in `cell`, as the step system has it. */
    ghost predicate Shows(id: Id, cell: StatusStorage, d: Delta)
      reads containerStore, containerNameIndex, containerd, cell
    {
      && cell.status == d.obj.status
      && id in containerd.resources && containerd.resources[id] == ResourcesOf(d.obj)
      && (id in containerStore.entries <==> d.obj.place == Stored)
      && (id in containerStore.entries ==> containerStore.entries[id] == Container(id, d.obj.sandbox, cell))
      && containerNameIndex.Contents() == d.names
    }

    /** The same for the sandbox of a container. */
    ghost predicate ShowsSandbox(sid: Id, sb: Option<Sandbox>)
      reads sandboxStore, containerd
    {
      && (sid in sandboxStore.entries <==> sb.Some? && sb.value.place == Stored)
      && (sb.Some? ==> sid in containerd.sandboxTasks && containerd.sandboxTasks[sid] == sb.value.task)
    }

    // --------------------------------------------------------- StartContainer

    /** The sandbox is in the store and its task runs. */
    ghost predicate SandboxRuns(sid: Id)
      reads sandboxStore, containerd
    {
      sid in sandboxStore.entries && sid in containerd.sandboxTasks && containerd.sandboxTasks[sid] == Running
    }

    /** Both lookups of the sandbox: it is in the store, and its task runs. */
    method CheckSandbox(id: Id, sid: Id, works: bool, ghost t: Tid, ghost sb: Option<Sandbox>, ghost d: Delta)
      returns (err: Option<string>, ghost script: seq<Choice>)
      requires ShowsSandbox(sid, sb) && d.call == Starting(id, SandboxGet)
      ensures err.None? <==> works && SandboxRuns(sid)
      ensures Alone(t, sb, d, script) == Some(d.(call := Starting(id, if err.None? then Pipes else CommitFailure)))
    {
      var sandbox := sandboxStore.Get(sid);
      ghost var c := Choice(Success, false, 0, 0, "", []);
      script := [c];
      if sandbox.None? {
        err := Some("sandbox not found");
        return;
      }
      var reply, task := containerd.GetSandboxTask(sid, works);
      Stretch(t, sb, d, script, d.(call := Starting(id, SandboxTask)), c.(reply := reply),
        d.(call := Starting(id, if reply != Error && task == Running then Pipes else CommitFailure)));
      script := script + [c.(reply := reply)];
      if reply != Success {
        return Some("failed to get sandbox container info"), script;
      }
      if task != Running {
        return Some("sandbox container is not running"), script;
      }
      err := None;
    }

    /** Opens the pipes and, if a log is wanted, starts a logger for each stream; on failure no pipe stays open. */
    method PrepareStreams(id: Id, logging: bool, tty: bool, fate: StartFate,
                          ghost t: Tid, ghost sb: Option<Sandbox>, ghost d: Delta)
      returns (ok: bool, ghost script: seq<Choice>)
      requires d.call == Starting(id, Pipes) && id !in containerd.streaming
      modifies containerd`streaming
      ensures ok <==> StreamsOpen(fate, logging, tty)
      ensures containerd.streaming == if ok then old(containerd.streaming) + {id} else old(containerd.streaming)
      ensures Alone(t, sb, d, script) == Some(d.(call := Starting(id, if ok then Mounts else CommitFailure)))
    {
      ghost var good, bad := Choice(Success, false, 0, 0, "", []), Choice(Error, false, 0, 0, "", []);
      ok := containerd.OpenPipes(id, fate.pipes);
      if !ok {
        script := [bad];
        return;
      }
      if logging {
        // A logger for each stream; with a terminal there is no stderr.
        ok := fate.stdoutLogger;
        if ok && !tty {
          ok := fate.stderrLogger;
        }
        if !ok {
          containerd.ClosePipes(id);
        }
      }
      Stretch(t, sb, d, [good], d.(call := Starting(id, Loggers)), if ok then good else bad,
        d.(call := Starting(id, if ok then Mounts else CommitFailure)));
      script := [good] + [if ok then good else bad];
    }

    /** Mounts the snapshot, creates the task and starts it; a task that does not start is deleted again. */
    method LaunchTask(id: Id, fate: StartFate, ghost t: Tid, ghost sb: Option<Sandbox>, ghost d: Delta)
      returns (pid: Option<nat>, ghost script: seq<Choice>, ghost o: Obj)
      requires d.call == Starting(id, Mounts)
      requires id in containerd.resources && containerd.resources[id] == ResourcesOf(d.obj)
      modifies containerd`resources
      ensures containerd.resources == old(containerd.resources)[id := ResourcesOf(o)]
      ensures o.status == d.obj.status && o.place == d.obj.place && o.sandbox == d.obj.sandbox
      ensures pid.Some? <==> TaskLaunches(fate, old(containerd.resources)[id])
      ensures ResourcesOf(o) == AfterLaunch(fate, old(containerd.resources)[id])
      ensures pid.Some? ==> pid.value == fate.pid
      ensures pid.Some? ==> o.initPid == pid.value != 0 && o.task == Running && o.snapshot
      ensures Alone(t, sb, d, script) ==
        Some(Delta(Starting(id, if pid.Some? then Commit else CommitFailure), o, d.names))
    {
      hide Alone, StepAlone;
      ghost var c := Choice(Success, false, 0, 0, "", []);
      o := d.obj;
      AloneNot(t, sb, d);
      var mounts := containerd.Mounts(id, fate.mounts);
      script := [] + [c.(reply := mounts)];
      ghost var e := d.(call := Starting(id, if mounts == Success then TaskCreate else CommitFailure));
      LaunchAlone(t, sb, id, o, d.names, c.(reply := mounts));
      Stretch(t, sb, d, [], d, c.(reply := mounts), e);
      if mounts != Success {
        return None, script, o;
      }

      var created := containerd.CreateTask(id, fate.create, fate.pid);
      ghost var c2 := c.(reply := created, pid := fate.pid);
      LaunchAlone(t, sb, id, o, d.names, c2);
      if created == Success {
        o := WithTask(o, Created, fate.pid);
      }
      ghost var f := Delta(Starting(id, if created == Success then TaskStart else CommitFailure), o, d.names);
      Stretch(t, sb, d, script, e, c2, f);
      script := script + [c2];
      if created != Success {
        return None, script, o;
      }
      var started, tail, last := StartOrDelete(id, fate, t, sb, f);
      AloneConcat(t, sb, d, script, f, tail);
      script, o := script + tail, last;
      pid := if started then Some(fate.pid) else None;
    }

    /** Starts a task that was just created, or deletes it again. */
    method StartOrDelete(id: Id, fate: StartFate, ghost t: Tid, ghost sb: Option<Sandbox>, ghost d: Delta)
      returns (ok: bool, ghost script: seq<Choice>, ghost o: Obj)
      requires d.call == Starting(id, TaskStart) && d.obj.task == Created
      requires id in containerd.resources && containerd.resources[id] == ResourcesOf(d.obj)
      modifies containerd`resources
      ensures containerd.resources == old(containerd.resources)[id := ResourcesOf(o)]
      ensures (ok <==> fate.start) && o == d.obj.(task := o.task)
      ensures o.task == if ok then Running else if fate.delete == Fails(false) then Created else NoTask
      ensures Alone(t, sb, d, script) == Some(Delta(Starting(id, if ok then Commit else CommitFailure), o, d.names))
    {
      hide Alone, StepAlone;
      ghost var c := Choice(Success, false, 0, 0, "", []);
      o := d.obj;
      AloneNot(t, sb, d);
      var started := containerd.StartTask(id, fate.start);
      ok := started == Success;
      LaunchAlone(t, sb, id, o, d.names, c.(reply := started));
      if ok {
        o := o.(task := Running);
      }
      ghost var e := Delta(Starting(id, if ok then Commit else CleanupTask), o, d.names);
      Stretch(t, sb, d, [], d, c.(reply := started), e);
      script := [] + [c.(reply := started)];
      if ok {
        return;
      }
      var deleted := containerd.DeleteTask(id, fate.delete);
      c := c.(reply := deleted, effect := fate.delete.Fails? && fate.delete.effect);
      LaunchAlone(t, sb, id, o, d.names, c);
      if !fate.delete.Keeps() {
        o := o.(task := NoTask);
      }
      Stretch(t, sb, d, script, e, c, Delta(Starting(id, CommitFailure), o, d.names));
      script := script + [c];
    }

    /** startContainer between its guards and its deferred failure handler. */
    method TryStart(id: Id, sid: Id, logging: bool, tty: bool, fate: StartFate,
                    ghost t: Tid, ghost sb: Option<Sandbox>, ghost d: Delta)
      returns (r: Result<nat>, ghost script: seq<Choice>, ghost o: Obj)
      requires d.call == Starting(id, SandboxGet) && ShowsSandbox(sid, sb)
      requires id in containerd.resources && containerd.resources[id] == ResourcesOf(d.obj)
      requires id !in containerd.streaming
      modifies containerd`resources, containerd`streaming
      ensures r.Ok? <==> SandboxRuns(sid) && Starts(fate, logging, tty, old(containerd.resources)[id])
      ensures r.Ok? ==> r.value == fate.pid
      ensures ResourcesOf(o) ==
        if SandboxRuns(sid) && fate.getTask && StreamsOpen(fate, logging, tty)
        then AfterLaunch(fate, old(containerd.resources)[id]) else old(containerd.resources)[id]
      ensures containerd.resources == old(containerd.resources)[id := ResourcesOf(o)]
      ensures containerd.streaming == if r.Ok? then old(containerd.streaming) + {id} else old(containerd.streaming)
      ensures o.status == d.obj.status && o.place == d.obj.place && o.sandbox == d.obj.sandbox
      ensures r.Ok? ==> o.initPid == r.value != 0 && o.task == Running && o.snapshot
      ensures Alone(t, sb, d, script) == Some(Delta(Starting(id, if r.Ok? then Commit else CommitFailure), o, d.names))
    {
      hide Alone, TaskLaunches, StreamsOpen, AfterLaunch;
      o := d.obj;
      var err, first := CheckSandbox(id, sid, fate.getTask, t, sb, d);
      script := first;
      if err.Some? {
        return Err(err.value), script, o;
      }
      ghost var e := d.(call := Starting(id, Pipes));
      var ok, second := PrepareStreams(id, logging, tty, fate, t, sb, e);
      AloneConcat(t, sb, d, script, e, second);
      script := script + second;
      if !ok {
        return Err("failed to prepare streams"), script, o;
      }
      ghost var f := d.(call := Starting(id, Mounts));
      var pid, third, last := LaunchTask(id, fate, t, sb, f);
      o := last;
      AloneConcat(t, sb, d, script, f, third);
      script := script + third;
      if pid.None? {
        containerd.ClosePipes(id);
        return Err("failed to launch the task"), script, o;
      }
      r := Ok(pid.value);
    }

    /**
    startContainer, on the copy of the status that the transaction works on.
    Whatever it returns, the new copy is to be written back.
    */
    method StartInTransaction(id: Id, sid: Id, logging: bool, tty: bool, now: int, fate: StartFate, copy: Status,
                              ghost t: Tid, ghost sb: Option<Sandbox>, ghost d: Delta)
      returns (r: Result<()>, status: Status, ghost script: seq<Choice>, ghost o: Obj)
      requires now != 0 && d.call == Starting(id, Guard) && ShowsSandbox(sid, sb)
      requires d.obj.status == copy && d.obj.lock.None?
      requires id in containerd.resources && containerd.resources[id] == ResourcesOf(d.obj)
      requires MayStart(copy) ==> id !in containerd.streaming
      modifies containerd`resources, containerd`streaming
      ensures containerd.resources == old(containerd.resources)[id := ResourcesOf(o)]
      ensures containerd.streaming == if r.Ok? then old(containerd.streaming) + {id} else old(containerd.streaming)
      ensures o.status == status && o.place == d.obj.place && o.sandbox == d.obj.sandbox
      ensures r.Ok? <==>
        MayStart(copy) && SandboxRuns(sid) && Starts(fate, logging, tty, old(containerd.resources)[id])
      ensures ResourcesOf(o) ==
        if MayStart(copy) && SandboxRuns(sid) && fate.getTask && StreamsOpen(fate, logging, tty)
        then AfterLaunch(fate, old(containerd.resources)[id]) else old(containerd.resources)[id]
      ensures r.Ok? ==> o.task == Running && o.initPid == fate.pid && status == CommitStart(copy, fate.pid, now)
      ensures r.Err? ==> status == if MayStart(copy) then FailStart(copy, now, r.error) else copy
      ensures Alone(t, sb, d, script) == Some(Delta(Finished(if r.Ok? then Plain else Failed), o, d.names))
    {
      hide Alone, StepAlone, Starts, StreamsOpen, AfterLaunch;
      status, o := copy, d.obj;
      ghost var c := Choice(Success, false, 0, now, "", []);
      AloneNot(t, sb, d);
      GuardAlone(t, sb, id, o, d.names, c);
      script := [] + [c];
      if status.State() != CREATED || status.removing {
        Stretch(t, sb, d, [], d, c, Delta(Finished(Failed), o, d.names));
        return Err("container is not in created state or is being removed"), status, script, o;
      }
      ghost var e := Delta(Starting(id, SandboxGet), o.(lock := Some(t), starts := o.starts + 1), d.names);
      Stretch(t, sb, d, [], d, c, e);

      var pid, tail, last := TryStart(id, sid, logging, tty, fate, t, sb, e);
      AloneConcat(t, sb, d, script, e, tail);
      script := script + tail;
      if pid.Err? {
        status := status.(pid := 0, finishedAt := now, exitCode := ERROR_START_EXIT_CODE,
          reason := ERROR_START_REASON, message := pid.error);
        r := Err(pid.error);
      } else {
        status := status.(pid := pid.value, startedAt := now);
        r := Ok(());
      }
      o := last.(status := status, lock := None);
      c := c.(msg := if pid.Err? then pid.error else "");
      CommitAlone(t, sb, id, last, d.names, c);
      Stretch(t, sb, d, script, Delta(Starting(id, if pid.Ok? then Commit else CommitFailure), last, d.names),
        c, Delta(Finished(if r.Ok? then Plain else Failed), o, d.names));
      script := script + [c];
    }

    /**
    StartContainer.  The status is copied out of its cell, worked on, and
    written back whether the start succeeds or fails.  It succeeds exactly if the
    guards hold, the sandbox runs and every call does its work.
    */
    method StartContainer(id: Id, logging: bool, tty: bool, now: int, fate: StartFate,
                          ghost t: Tid, ghost o: Obj, ghost sb: Option<Sandbox>)
      returns (r: Result<()>, ghost script: seq<Choice>, ghost o2: Obj)
      requires now != 0
      requires id in containerStore.entries && MayStart(containerStore.entries[id].status.status) ==>
        id !in containerd.streaming
      requires id in containerStore.entries ==>
        && ShowsSandbox(containerStore.entries[id].sandbox, sb) && o.lock.None?
        && Shows(id, containerStore.entries[id].status, Delta(Starting(id, Guard), o, containerNameIndex.Contents()))
      modifies containerd`resources, containerd`streaming,
        if id in containerStore.entries then {containerStore.entries[id].status} else {}
      ensures id !in containerStore.entries ==> r.Err? && containerd.resources == old(containerd.resources)
      ensures containerd.streaming == if r.Ok? then old(containerd.streaming) + {id} else old(containerd.streaming)
      ensures id in containerStore.entries ==>
        var cell := containerStore.entries[id].status;
        var names := containerNameIndex.Contents();
        && Alone(t, sb, Delta(Starting(id, Guard), o, names), script) ==
             Some(Delta(Finished(if r.Ok? then Plain else Failed), o2, names))
        && Shows(id, cell, Delta(Finished(Plain), o2, names))
        && containerd.resources == old(containerd.resources)[id := containerd.resources[id]]
        && containerd.resources[id] ==
             (if MayStart(old(cell.status)) && SandboxRuns(containerStore.entries[id].sandbox)
                 && fate.getTask && StreamsOpen(fate, logging, tty)
              then AfterLaunch(fate, old(containerd.resources)[id]) else old(containerd.resources)[id])
      ensures id in containerStore.entries ==>
        var cell := containerStore.entries[id].status;
        && (r.Ok? <==> && MayStart(old(cell.status)) && SandboxRuns(containerStore.entries[id].sandbox)
                       && Starts(fate, logging, tty, old(containerd.resources)[id]))
        && (r.Ok? ==> cell.status == old(cell.status).(pid := fate.pid, startedAt := now))
        && (r.Err? && MayStart(old(cell.status)) ==>
              cell.status == old(cell.status).(pid := 0, finishedAt := now, exitCode := 128,
                                               reason := "StartError", message := r.error))
        && (r.Err? && !MayStart(old(cell.status)) ==> cell.status == old(cell.status))
    {
      hide Alone, MayStart, Starts, StreamsOpen, AfterLaunch;
      var container := containerStore.Get(id);
      if container.None? {
        return Err("container not found"), [], o;
      }
      var cell := container.value.status;
      ghost var d := Delta(Starting(id, Guard), o, containerNameIndex.Contents());
      var copy := cell.Get();
      var status;
      r, status, script, o2 :=
        StartInTransaction(id, container.value.sandbox, logging, tty, now, fate, copy, t, sb, d);
      var _ := cell.Update((st: Status) => Ok(status));
    }

    // -------------------------------------------------------- RemoveContainer

    /** Deletes the root directory, then the containerd container. */
    method DeleteRootDirAndContainer(id: Id, fate: RemoveFate,
                                     ghost t: Tid, ghost sb: Option<Sandbox>, ghost up: Up, ghost d: Delta)
      returns (ok: bool, ghost script: seq<Choice>, ghost o: Obj)
      requires d.call == Removing(id, RootDir, up)
      requires id in containerd.resources && containerd.resources[id] == ResourcesOf(d.obj)
      modifies containerd`resources
      ensures containerd.resources == old(containerd.resources)[id := ResourcesOf(o)]
      ensures o == d.obj.(rootDir := o.rootDir, ctr := o.ctr)
      ensures ok <==> fate.rootDir.Works? && fate.ctr.Works?
      ensures o.rootDir == (d.obj.rootDir && fate.rootDir == Fails(false))
      ensures o.ctr == (d.obj.ctr && (fate.rootDir.Fails? || fate.ctr == Fails(false)))
      ensures Alone(t, sb, d, script) == Some(Delta(Removing(id, if ok then DeleteStore else Reset, up), o, d.names))
    {
      hide Alone, StepAlone;
      AloneNot(t, sb, d);
      var removed := containerd.RemoveRootDir(id, fate.rootDir);
      ghost var c := ChoiceOf(if removed then Success else Error, fate.rootDir);
      RootDirAlone(t, sb, id, up, d.obj, d.names, c);
      o := d.obj.(rootDir := d.obj.rootDir && fate.rootDir.Keeps());
      ghost var e := Delta(Removing(id, if removed then Ctr else Reset, up), o, d.names);
      Stretch(t, sb, d, [], d, c, e);
      script := [] + [c];
      if !removed {
        return false, script, o;
      }
      var deleted, tail, last := DeleteCtrdContainer(id, fate, t, sb, up, e);
      AloneConcat(t, sb, d, script, e, tail);
      PutTwice(old(containerd.resources), id, ResourcesOf(e.obj), ResourcesOf(last));
      ok, script, o := deleted, script + tail, last;
    }

    method DeleteCtrdContainer(id: Id, fate: RemoveFate,
                               ghost t: Tid, ghost sb: Option<Sandbox>, ghost up: Up, ghost d: Delta)
      returns (ok: bool, ghost script: seq<Choice>, ghost o: Obj)
      requires d.call == Removing(id, Ctr, up)
      requires id in containerd.resources && containerd.resources[id] == ResourcesOf(d.obj)
      modifies containerd`resources
      ensures containerd.resources == old(containerd.resources)[id := ResourcesOf(o)]
      ensures (ok <==> fate.ctr.Works?) && o == d.obj.(ctr := d.obj.ctr && fate.ctr == Fails(false))
      ensures Alone(t, sb, d, script) == Some(Delta(Removing(id, if ok then DeleteStore else Reset, up), o, d.names))
    {
      hide Alone, StepAlone;
      AloneNot(t, sb, d);
      var deleted := containerd.DeleteContainer(id, fate.ctr);
      ok := deleted != Error;
      ghost var c := ChoiceOf(deleted, fate.ctr);
      CtrAlone(t, sb, id, up, d.obj, d.names, c);
      o := d.obj.(ctr := d.obj.ctr && fate.ctr.Keeps());
      Stretch(t, sb, d, [], d, c, Delta(Removing(id, if ok then DeleteStore else Reset, up), o, d.names));
      script := [] + [c];
    }

    /** Deletes snapshot, root directory and containerd container, in this order, up to the first failure. */
    method DeleteResources(id: Id, fate: RemoveFate, ghost t: Tid, ghost sb: Option<Sandbox>, ghost up: Up,
                           ghost d: Delta)
      returns (ok: bool, ghost script: seq<Choice>, ghost o: Obj)
      requires d.call == Removing(id, Snapshot, up)
      requires id in containerd.resources && containerd.resources[id] == ResourcesOf(d.obj)
      modifies containerd`resources
      ensures containerd.resources == old(containerd.resources)[id := ResourcesOf(o)]
      ensures o == d.obj.(snapshot := o.snapshot, rootDir := o.rootDir, ctr := o.ctr)
      ensures (ok <==> AllWork(fate)) && ResourcesOf(o) == AfterRemoval(fate, ResourcesOf(d.obj))
      ensures ok ==> !o.snapshot && !o.rootDir && !o.ctr
      ensures Alone(t, sb, d, script) == Some(Delta(Removing(id, if ok then DeleteStore else Reset, up), o, d.names))
    {
      hide Alone, StepAlone;
      AloneNot(t, sb, d);
      var reply := containerd.RemoveSnapshot(id, fate.snapshot);
      ghost var c := ChoiceOf(reply, fate.snapshot);
      SnapshotAlone(t, sb, id, up, d.obj, d.names, c);
      o := d.obj.(snapshot := d.obj.snapshot && fate.snapshot.Keeps());
      ghost var e := Delta(Removing(id, if reply == Error then Reset else RootDir, up), o, d.names);
      Stretch(t, sb, d, [], d, c, e);
      script := [] + [c];
      if reply == Error {
        return false, script, o;
      }
      var rest, tail, last := DeleteRootDirAndContainer(id, fate, t, sb, up, e);
      AloneConcat(t, sb, d, script, e, tail);
      PutTwice(old(containerd.resources), id, ResourcesOf(e.obj), ResourcesOf(last));
      ok, script, o := rest, script + tail, last;
    }

    /** RemoveContainer once the container is marked; the mark is taken back on a failure. */
    method RemoveMarked(id: Id, cell: StatusStorage, fate: RemoveFate,
                        ghost t: Tid, ghost sb: Option<Sandbox>, ghost up: Up, ghost d: Delta)
      returns (ok: bool, ghost script: seq<Choice>, ghost o: Obj)
      requires d.call == Removing(id, Snapshot, up) && d.obj.lock.None? && cell.status == d.obj.status
      requires id in containerd.resources && containerd.resources[id] == ResourcesOf(d.obj)
      requires containerNameIndex.Contents() == d.names && d.names.Inverse()
      modifies containerd`resources, containerStore, containerNameIndex, cell
      ensures ok <==> AllWork(fate)
      ensures containerd.resources == old(containerd.resources)[id := ResourcesOf(o)]
      ensures containerStore.entries == if ok then old(containerStore.entries) - {id} else old(containerStore.entries)
      ensures containerNameIndex.Contents() == (if ok then d.names.ReleaseByKey(id) else d.names)
      ensures containerNameIndex.Contents().Inverse()
      ensures cell.status == o.status == if ok then d.obj.status else ResetRemoving(d.obj.status)
      ensures o.sandbox == d.obj.sandbox && o.lock.None? && o.place == if ok then Removed else d.obj.place
      ensures ResourcesOf(o) == AfterRemoval(fate, ResourcesOf(d.obj))
      ensures ok ==> ResourcesOf(o) == Resources(false, false, false, d.obj.task, d.obj.initPid)
      ensures Alone(t, sb, d, script) ==
        Some(Delta(if ok then AfterRemove(up) else Finished(Failed), o, containerNameIndex.Contents()))
    {
      hide Alone, StepAlone, AfterRemove, AllWork, AfterRemoval;
      ghost var c := Choice(Success, false, 0, 0, "", []);
      var done, first, last := DeleteResources(id, fate, t, sb, up, d);
      ok, script := done, first;
      if !ok {
        ResetAlone(t, sb, id, up, last, d.names, c);
        var _ := cell.Update((st: Status) => Ok(ResetRemoving(st)));
        o := last.(status := ResetRemoving(last.status), remover := None);
        Stretch(t, sb, d, script, Delta(Removing(id, Reset, up), last, d.names), c,
          Delta(Finished(Failed), o, d.names));
        script := script + [c];
        return;
      }
      containerStore.Delete(id);
      containerNameIndex.ReleaseByKey(id);
      o := last.(place := Removed);
      DropAlone(t, sb, id, up, last, d.names, c);
      AloneConcat(t, sb, d, script, Delta(Removing(id, DeleteStore, up), last, d.names), [c, c]);
      script := script + [c, c];
    }

    /**
    RemoveContainer.  An unknown container is no error.  On success the entry,
    the name and all resources are gone and the cell stays marked; on a failure
    on the way the mark is taken back.  A known container is removed exactly if it
    may be marked and no deletion fails.
    */
    method RemoveContainer(id: Id, fate: RemoveFate,
                           ghost t: Tid, ghost sb: Option<Sandbox>, ghost up: Up, ghost o: Obj)
      returns (r: Result<()>, ghost script: seq<Choice>, ghost o2: Obj)
      requires containerNameIndex.Contents().Inverse()
      requires id in containerStore.entries ==>
        && Shows(id, containerStore.entries[id].status,
                 Delta(Removing(id, SetRemovingPc, up), o, containerNameIndex.Contents()))
        && o.lock.None?
      modifies containerd`resources, containerStore, containerNameIndex,
        if id in containerStore.entries then {containerStore.entries[id].status} else {}
      ensures id !in old(containerStore.entries) ==>
        && r.Ok? && containerStore.entries == old(containerStore.entries)
        && containerNameIndex.Contents() == old(containerNameIndex.Contents())
        && containerd.resources == old(containerd.resources)
      ensures id in old(containerStore.entries) ==>
        && Alone(t, sb, Delta(Removing(id, SetRemovingPc, up), o, old(containerNameIndex.Contents())), script) ==
             Some(Delta(if r.Ok? then AfterRemove(up) else Finished(Failed), o2, containerNameIndex.Contents()))
        && Shows(id, old(containerStore.entries[id].status), Delta(Finished(Plain), o2, containerNameIndex.Contents()))
        && o2.lock.None? && containerd.resources == old(containerd.resources)[id := containerd.resources[id]]
        && containerd.resources[id] == AfterTry(o.status, fate, old(containerd.resources)[id])
      ensures id in old(containerStore.entries) ==> (r.Ok? <==> Removable(o.status, fate))
      ensures id in old(containerStore.entries) && r.Ok? ==>
        && old(containerStore.entries[id].status).status == o.status.(removing := true)
        && containerStore.entries == old(containerStore.entries) - {id}
        && containerNameIndex.Contents() == old(containerNameIndex.Contents()).ReleaseByKey(id)
        && containerd.resources[id] == Resources(false, false, false, o.task, o.initPid)
      ensures id in old(containerStore.entries) && r.Err? ==>
        && old(containerStore.entries[id].status).status == o.status
        && containerStore.entries == old(containerStore.entries)
        && containerNameIndex.Contents() == old(containerNameIndex.Contents())
      ensures containerNameIndex.Contents().Inverse()
    {
      hide Alone, StepAlone, AfterRemove, AllWork, AfterRemoval;
      hide Registrar.Index.Inverse, Registrar.Index.ReleaseByKey;
      script, o2 := [], o;
      var container := containerStore.Get(id);
      if container.None? {
        return Ok(()), script, o2;
      }
      var cell := container.value.status;
      ghost var names := containerNameIndex.Contents();
      ghost var c := Choice(Success, false, 0, 0, "", []);
      ghost var d := Delta(Removing(id, SetRemovingPc, up), o, names);
      AloneNot(t, sb, d);
      RemovalAlone(t, sb, id, up, o, names, c);
      var marked := cell.Update(SetRemoving);
      script := [] + [c];
      if marked.Err? {
        Stretch(t, sb, d, [], d, c, Delta(Finished(Failed), o, names));
        return Err("failed to set removing state"), script, o;
      }
      ghost var o1 := o.(status := SetRemoving(o.status).value, remover := Some(t));
      ghost var e := Delta(Removing(id, Snapshot, up), o1, names);
      Stretch(t, sb, d, [], d, c, e);
      var ok, tail, last := RemoveMarked(id, cell, fate, t, sb, up, e);
      AloneConcat(t, sb, d, script, e, tail);
      script, o2 := script + tail, last;
      r := if ok then Ok(()) else Err("failed to remove container");
    }

    // ------------------------------------------------------------ handleEvent

    /**
    handleEvent.  An exit is recorded if it is that of the init process and the
    task can be deleted or is gone already; it is given up exactly if the deletion
    fails.  An OOM event of an unknown container is a nil dereference.
    */
    method HandleEvent(ev: Event, delete: Deletion, ghost o: Obj)
      returns (panics: bool, gaveUp: bool, ghost script: seq<Choice>, ghost o2: Obj)
      requires ev.ExitEvent? ==> ev.code < 0x1_0000_0000
      requires ev.id in containerStore.entries ==>
        && Shows(ev.id, containerStore.entries[ev.id].status, Delta(Finished(Plain), o, containerNameIndex.Contents()))
        && o.lock.None?
      modifies containerd`resources,
        if ev.id in containerStore.entries then {containerStore.entries[ev.id].status} else {}
      ensures panics <==> ev.OomEvent? && ev.id !in containerStore.entries
      ensures ev.id !in containerStore.entries ==> containerd.resources == old(containerd.resources)
      ensures ev.id in containerStore.entries ==>
        var cell := containerStore.entries[ev.id].status;
        && MonitorAlone(MonitorDelta(Found(ev), o), script) == Some(MonitorDelta(Idle, o2))
        && Shows(ev.id, cell, Delta(Finished(Plain), o2, containerNameIndex.Contents()))
        && containerd.resources == old(containerd.resources)[ev.id := containerd.resources[ev.id]]
        && o2.dropped == (o.dropped || gaveUp)
      ensures ev.id in containerStore.entries ==>
        var cell := containerStore.entries[ev.id].status;
        var own := ev.ExitEvent? && ev.pid == o.status.pid;
        && (gaveUp <==> own && delete.Fails?)
        && (ev.OomEvent? ==> cell.status == o.status.(reason := "OOMKilled"))
        && (ev.ExitEvent? && (!own || gaveUp) ==> cell.status == o.status)
        && o2.task == (if own && delete != Fails(false) then NoTask else o.task)
        && (own && !gaveUp && o.status.finishedAt == 0 ==>
              cell.status == o.status.(pid := 0, finishedAt := ev.at, exitCode := ToInt32(ev.code)))
        && (own && !gaveUp && o.status.finishedAt != 0 ==> cell.status == o.status)
    {
      panics, gaveUp, script, o2 := false, false, [], o;
      var cntr := containerStore.Get(ev.id);
      if cntr.None? {
        return ev.OomEvent?, false, script, o2;
      }
      var cell := cntr.value.status;
      ghost var c := Choice(Success, false, 0, 0, "", []);
      ghost var d := MonitorDelta(Found(ev), o);
      script := [c];
      if ev.OomEvent? {
        var _ := cell.Update((st: Status) => Ok(st.(reason := OOM_EXIT_REASON)));
        o2 := o.(status := RecordOom(o.status));
        return;
      }
      var status := cell.Get();
      if ev.pid != status.pid {
        return;
      }
      var reply := containerd.DeleteTask(ev.id, delete);
      ghost var c2 := ChoiceOf(reply, delete);
      script := [c] + [c2];
      if reply == Error {
        gaveUp, o2 := true, o.(dropped := true, task := if delete.effect then NoTask else o.task);
        StretchMonitor(d, [c], MonitorDelta(Matched(ev), o), c2, MonitorDelta(Idle, o2));
        return;
      }
      ghost var gone := o.(task := NoTask);
      StretchMonitor(d, [c], MonitorDelta(Matched(ev), o), c2, MonitorDelta(Deleted(ev), gone));
      var _ := cell.Update((st: Status) =>
        Ok(if st.finishedAt != 0 then st else st.(pid := 0, finishedAt := ev.at, exitCode := ToInt32(ev.code))));
      o2 := gone.(status := RecordExit(o.status, ev.code, ev.at));
      StretchMonitor(d, script, MonitorDelta(Deleted(ev), gone), c, MonitorDelta(Idle, o2));
      script := script + [c];
    }

    // ------------------------------------------------------- RemovePodSandbox

    /** Every entry is stored under its own id, containerd knows the id, and no two entries share a status cell. */
    ghost predicate Consistent()
      reads containerStore, containerd
    {
      ConsistentEntries(containerStore.entries, containerd.resources)
    }

    /** The heap shows the containers as in `v`. */
    ghost predicate Sees(v: View)
      reads containerStore, containerNameIndex, containerd,
        set id | id in containerStore.entries :: containerStore.entries[id].status
    {
      && v.entries == containerStore.entries && v.res == containerd.resources
      && v.names == containerNameIndex.Contents()
      && forall id :: id in containerStore.entries ==>
           id in v.statuses && v.statuses[id] == containerStore.entries[id].status.status
    }

    /** RemoveContainer of a container beside all the others. */
    method RemoveSeen(id: Id, fate: RemoveFate,
                      ghost t: Tid, ghost sb: Option<Sandbox>, ghost up: Up, ghost o: Obj, ghost v: View)
      returns (ok: bool, ghost script: seq<Choice>, ghost e: Delta, ghost v2: View)
      requires containerNameIndex.Contents().Inverse() && Consistent() && id in containerStore.entries && Sees(v)
      requires Alike(v, id, o) && o.place == Stored
      modifies containerd`resources, containerStore, containerNameIndex, containerStore.entries[id].status
      ensures containerNameIndex.Contents().Inverse() && Sees(v2) && v2.names == e.names
      ensures v2.names == if ok then v.names.ReleaseByKey(id) else v.names
      ensures Alone(t, sb, Delta(Removing(id, SetRemovingPc, up), o, v.names), script) == Some(e)
      ensures e.call == (if ok then AfterRemove(up) else Finished(Failed))
      ensures Changes(v, v2, id, e.obj, ok) && (ok <==> Removable(o.status, fate)) && (!ok ==> e.obj.status == o.status)
      ensures v2.res == v.res[id := AfterTry(o.status, fate, v.res[id])]
    {
      hide Alone, AfterRemove, Removable, AfterTry, Registrar.Index.Inverse, Registrar.Index.ReleaseByKey;
      ghost var mine := containerStore.entries[id].status;
      assert forall x :: x in containerStore.entries && x != id ==> containerStore.entries[x].status != mine;
      assert id in containerd.resources;
      hide ConsistentEntries;
      var r, steps, o2 := RemoveContainer(id, fate, t, sb, up, o);
      ok, script := r.Ok?, steps;
      e := Delta(if ok then AfterRemove(up) else Finished(Failed), o2, containerNameIndex.Contents());
      v2 := View(containerStore.entries, v.statuses[id := mine.status], containerd.resources,
        containerNameIndex.Contents());
      assert !ok ==> Alike(v2, id, o2);
      hide Alike, Shows, ResourcesOf;
      ChangesBecause(v, v2, id, o2, ok);
      hide Changes;
      forall x | x in containerStore.entries
        ensures v2.statuses[x] == containerStore.entries[x].status.status
      {
        assert x != id ==> containerStore.entries[x].status != mine;
      }
    }

    /** One turn of the loop, on a container of the sandbox. */
    method RemoveNext(id: Id, sid: Id, fate: RemoveFate, ghost t: Tid, ghost order: seq<Id>, ghost n: nat,
                      ghost reach: World -> bool, ghost w: World, ghost v0: View, ghost v: View)
      returns (ok: bool, ghost w2: World, ghost v2: View)
      requires containerNameIndex.Contents().Inverse() && Consistent() && Sees(v) && CulledView(v0, sid, v)
      requires id in containerStore.entries && containerStore.entries[id].sandbox == sid
      requires n < |order| && order[n] == id
      requires At(reach, t, w, RemovingSb(sid, order, n, RsLoop)) && sid in w.sbs && Depicts(w, v)
      modifies containerd`resources, containerStore, containerNameIndex, containerStore.entries[id].status
      ensures containerNameIndex.Contents().Inverse() && Consistent() && Sees(v2) && CulledView(v0, sid, v2)
      ensures v2.entries == if ok then v.entries - {id} else v.entries
      ensures id in v0.statuses && (ok <==> Removable(v0.statuses[id], fate))
      ensures id in v.res && v2.res == v.res[id := AfterTry(v0.statuses[id], fate, v.res[id])]
      ensures At(reach, t, w2, if ok then RemovingSb(sid, order, n + 1, RsLoop) else Finished(Failed))
      ensures Depicts(w2, v2)
      ensures w2.sbs == w.sbs && w2.sbNames == w.sbNames
    {
      assert InStore(w, id) && Alike(v, id, w.objs[id]) && w.names == v.names;
      CulledConsistent(v0, sid, v);
      hide Alone, Closed, Depicts, Alike, ConsistentEntries, CulledView, Removable, AfterTry;
      hide Registrar.Index.Inverse, Registrar.Index.ReleaseByKey;
      var removed, script, e, v1 := RemoveSeen(id, fate, t, SandboxOf(w, id), RemoveLoop(sid, order, n), w.objs[id], v);
      ok, v2 := removed, v1;
      TurnRefines(reach, t, w, sid, order, n, id, v, script, e, v2, ok);
      CulledViewStep(v0, sid, v, v2, id, e.obj, ok);
      w2 := Apply(w, t, id, e);
      CulledConsistent(v0, sid, v2);
    }

    method ListContainers() returns (list: seq<Container>)
      requires Consistent()
      ensures Listing(list, containerStore.entries)
    {
      var pairs := containerStore.List();
      list := [];
      for i := 0 to |pairs|
        invariant |list| == i && forall j :: 0 <= j < i ==> list[j] == pairs[j].1
      {
        list := list + [pairs[i].1];
      }
      forall id | id in containerStore.entries
        ensures containerStore.entries[id] in list
      {
        assert id in containerStore.entries.Keys;
        var i :| 0 <= i < |pairs| && pairs[i].0 == id;
        assert list[i] == containerStore.entries[id];
      }
    }

    /** One turn of the loop: a container of another sandbox is passed over, one of this sandbox is removed. */
    method Turn(list: seq<Container>, n: nat, sid: Id, fate: SandboxFate, ghost t: Tid, ghost cells: set<StatusStorage>,
                ghost reach: World -> bool, ghost w: World, ghost v0: View, ghost v: View)
      returns (ok: bool, ghost w2: World, ghost v2: View)
      requires containerNameIndex.Contents().Inverse() && Consistent() && Sees(v) && Listing(list, v0.entries)
      requires forall id :: id in v0.entries && v0.entries[id].sandbox == sid ==> v0.entries[id].status in cells
      requires n < |list| && InLoop(reach, t, w, sid, list, n, v0, v, fate.containers)
      modifies containerd`resources, containerStore, containerNameIndex, cells
      ensures containerNameIndex.Contents().Inverse() && Consistent() && Sees(v2)
      ensures ok ==> InLoop(reach, t, w2, sid, list, n + 1, v0, v2, fate.containers)
      ensures !ok ==> At(reach, t, w2, Finished(Failed)) && Depicts(w2, v2) && CulledView(v0, sid, v2)
      ensures !ok ==> !AllRemovable(v0, sid, fate.containers)
      ensures !ok ==> Leftovers(v0, v2, sid, fate.containers, Some(list[n].id))
      ensures w2.sbs == w.sbs && w2.sbNames == w.sbNames
    {
      hide Closed, Depicts, AllRemovable, CulledView, Removable, ConsistentEntries, Registrar.Index.Inverse;
      ghost var order := Ids(list);
      ProgressStep(v0.entries, list, n, sid, v.entries);
      RemovableNext(v0, list, n, sid, fate.containers);
      CulledConsistent(v0, sid, v);
      hide Progress, Listing, RemovableUpTo, Leftovers, AfterTry;
      if list[n].sandbox != sid {
        SkipRefines(reach, t, w, sid, order, n, v);
        ok, w2, v2 := true, Moved(w, t, RemovingSb(sid, order, n + 1, RsLoop)), v;
      } else {
        var removed, w3, v3 := RemoveNext(list[n].id, sid, fate.containers(list[n].id), t, order, n, reach, w, v0, v);
        ok, w2, v2 := removed, w3, v3;
        LeftoversNext(v0, v, v2, sid, fate.containers, list[n].id, ok);
      }
    }

    /** The loop over a listing of the container store: it stops at the first failure. */
    method RemoveAll(list: seq<Container>, sid: Id, fate: SandboxFate, ghost t: Tid, ghost cells: set<StatusStorage>,
                     ghost reach: World -> bool, ghost w: World, ghost v0: View)
      returns (ok: bool, ghost w2: World, ghost v: View, ghost bad: Option<Id>)
      requires containerNameIndex.Contents().Inverse() && Consistent() && Sees(v0) && Listing(list, v0.entries)
      requires forall id :: id in v0.entries && v0.entries[id].sandbox == sid ==> v0.entries[id].status in cells
      requires At(reach, t, w, RemovingSb(sid, Ids(list), 0, RsLoop)) && sid in w.sbs && Depicts(w, v0)
      modifies containerd`resources, containerStore, containerNameIndex, cells
      ensures containerNameIndex.Contents().Inverse() && Sees(v) && CulledView(v0, sid, v)
      ensures Leftovers(v0, v, sid, fate.containers, bad)
      ensures ok <==> AllRemovable(v0, sid, fate.containers)
      ensures ok ==> bad == None && InLoop(reach, t, w2, sid, list, |list|, v0, v, fate.containers)
      ensures !ok ==> At(reach, t, w2, Finished(Failed))
      ensures Depicts(w2, v) && w2.sbs == w.sbs && w2.sbNames == w.sbNames
    {
      hide Closed, Depicts, AllRemovable, CulledView, ConsistentEntries, InLoop, Listing, At, Leftovers;
      hide Registrar.Index.Inverse;
      v, w2, bad := v0, w, None;
      LoopStart(reach, t, w, sid, list, v0, fate.containers);
      for n := 0 to |list|
        invariant containerNameIndex.Contents().Inverse() && Consistent() && Sees(v)
        invariant InLoop(reach, t, w2, sid, list, n, v0, v, fate.containers)
        invariant w2.sbs == w.sbs && w2.sbNames == w.sbNames
      {
        var removed, w3, v3 := Turn(list, n, sid, fate, t, cells, reach, w2, v0, v);
        w2, v := w3, v3;
        if !removed {
          return false, w2, v, Some(list[n].id);
        }
      }
      LoopDone(reach, t, w2, sid, list, v0, v, fate.containers);
      ok := true;
    }

    /** The containers of the sandbox that are in the store at the List step are removed. */
    method RemoveContainersOf(sid: Id, fate: SandboxFate, ghost t: Tid, ghost cells: set<StatusStorage>,
                              ghost reach: World -> bool, ghost w: World, ghost v0: View)
      returns (ok: bool, ghost w2: World, ghost v: View, ghost bad: Option<Id>, ghost order: seq<Id>)
      requires containerNameIndex.Contents().Inverse() && Consistent() && Sees(v0)
      requires forall id :: id in containerStore.entries && containerStore.entries[id].sandbox == sid ==>
        containerStore.entries[id].status in cells
      requires At(reach, t, w, RemovingSb(sid, [], 0, RsList)) && sid in w.sbs && Depicts(w, v0)
      modifies containerd`resources, containerStore, containerNameIndex, cells
      ensures containerNameIndex.Contents().Inverse() && Sees(v) && CulledView(v0, sid, v)
      ensures Leftovers(v0, v, sid, fate.containers, bad)
      ensures ok <==> AllRemovable(v0, sid, fate.containers)
      ensures ok ==> forall id :: id in v.entries ==> v.entries[id].sandbox != sid
      ensures At(reach, t, w2, if ok then RemovingSb(sid, order, |order|, RsRootDir) else Finished(Failed))
      ensures Depicts(w2, v)
      ensures w2.sbs == w.sbs && w2.sbNames == w.sbNames
    {
      hide Closed, Depicts, Lists, AllRemovable, CulledView, ConsistentEntries, Progress, RemovableUpTo, Listing;
      hide Registrar.Index.Inverse, Leftovers;
      var list := ListContainers();
      order := Ids(list);
      ListingLists(w, v0, list);
      ghost var w1 := Moved(w, t, RemovingSb(sid, order, 0, RsLoop));
      ListMove(reach, t, w, sid, order);
      DepictsMoved(w, v0, t, RemovingSb(sid, order, 0, RsLoop));
      var removed, w3, v3, bad3 := RemoveAll(list, sid, fate, t, cells, reach, w1, v0);
      ok, w2, v, bad := removed, w3, v3, bad3;
      if ok {
        ProgressEnd(v0.entries, list, sid, v.entries);
        LoopMove(reach, t, w2, sid, order, |list|);
        DepictsMoved(w2, v, t, RemovingSb(sid, order, |list|, RsRootDir));
        w2 := Moved(w2, t, RemovingSb(sid, order, |list|, RsRootDir));
      }
    }

    /** The heap shows sandbox `sid` and the sandbox names as world `w` has them. */
    ghost predicate SeesSandbox(sid: Id, w: World)
      reads sandboxStore, sandboxNameIndex, containerd
    {
      && (sid in sandboxStore.entries <==> InSandboxStore(w, sid))
      && (sid in w.sbs ==> sid in containerd.sandboxTasks && containerd.sandboxTasks[sid] == w.sbs[sid].task)
      && sandboxNameIndex.Contents() == w.sbNames
    }

    /** Once the containers are gone: the root directory and the containerd container of the sandbox. */
    method DeleteSandboxContainer(fate: SandboxFate, ghost sid: Id, ghost t: Tid, ghost order: seq<Id>,
                                  ghost reach: World -> bool, ghost w: World, ghost v: View)
      returns (ok: bool, ghost w2: World)
      requires At(reach, t, w, RemovingSb(sid, order, |order|, RsRootDir)) && sid in w.sbs && Depicts(w, v)
      ensures ok <==> fate.rootDir && fate.ctr != Error
      ensures At(reach, t, w2, if ok then RemovingSb(sid, order, |order|, RsDelete) else Finished(Failed))
      ensures Depicts(w2, v) && w2.sbs == w.sbs && w2.sbNames == w.sbNames
    {
      hide Closed, Depicts;
      ghost var reply := if fate.rootDir then Success else Error;
      ghost var call := if fate.rootDir then RemovingSb(sid, order, |order|, RsCtr) else Finished(Failed);
      CleanupMove(reach, t, w, sid, order, |order|, RsRootDir, reply);
      DepictsMoved(w, v, t, call);
      w2 := Moved(w, t, call);
      if !fate.rootDir {
        return false, w2;
      }
      CleanupMove(reach, t, w2, sid, order, |order|, RsCtr, fate.ctr);
      call := if fate.ctr != Error then RemovingSb(sid, order, |order|, RsDelete) else Finished(Failed);
      DepictsMoved(w2, v, t, call);
      w2 := Moved(w2, t, call);
      ok := fate.ctr != Error;
    }

    /** The last two steps: the entry of the sandbox and its name. */
    method DropSandbox(sid: Id, ghost t: Tid, ghost order: seq<Id>, ghost reach: World -> bool, ghost w: World,
                       ghost v: View)
      returns (ghost w2: World)
      requires sandboxNameIndex.Contents().Inverse() && sid in sandboxStore.entries && SeesSandbox(sid, w)
      requires At(reach, t, w, RemovingSb(sid, order, |order|, RsDelete)) && Depicts(w, v)
      modifies sandboxStore, sandboxNameIndex
      ensures sandboxNameIndex.Contents().Inverse() && SeesSandbox(sid, w2) && Depicts(w2, v)
      ensures sandboxStore.entries == old(sandboxStore.entries) - {sid}
      ensures sandboxNameIndex.Contents() == old(sandboxNameIndex.Contents()).ReleaseByKey(sid)
      ensures At(reach, t, w2, Finished(SandboxRemoved(sid, order)))
    {
      hide Closed, Depicts, Registrar.Index.Inverse, Registrar.Index.ReleaseByKey;
      sandboxStore.Delete(sid);
      sandboxNameIndex.ReleaseByKey(sid);
      DropMove(reach, t, w, sid, order, |order|);
      DepictsDropped(w, v, t, sid, order);
      w2 := Dropped(w, t, sid, order);
    }

    /** The start of RemovePodSandbox: there must be no sandbox task any more; then its snapshot goes. */
    method CheckStopped(sid: Id, fate: SandboxFate, ghost t: Tid, ghost reach: World -> bool, ghost w: World,
                        ghost v: View)
      returns (ok: bool, ghost w2: World)
      requires sid in containerd.sandboxTasks && sid in w.sbs && containerd.sandboxTasks[sid] == w.sbs[sid].task
      requires At(reach, t, w, RemovingSb(sid, [], 0, RsGet)) && Depicts(w, v)
      ensures ok <==> fate.getTask && containerd.sandboxTasks[sid] == NoTask && fate.snapshot != Error
      ensures At(reach, t, w2, if ok then RemovingSb(sid, [], 0, RsList) else Finished(Failed)) && Depicts(w2, v)
      ensures w2.sbs == w.sbs && w2.sbNames == w.sbNames
    {
      hide Closed, Depicts;
      var reply, _ := containerd.GetSandboxTask(sid, fate.getTask);
      GetMove(reach, t, w, sid, reply);
      ghost var call := if reply == NotFound then RemovingSb(sid, [], 0, RsSnapshot) else Finished(Failed);
      DepictsMoved(w, v, t, call);
      w2 := Moved(w, t, call);
      if reply != NotFound {
        return false, w2;
      }
      SnapshotMove(reach, t, w2, sid, fate.snapshot);
      call := if fate.snapshot == Error then Finished(Failed) else RemovingSb(sid, [], 0, RsList);
      DepictsMoved(w2, v, t, call);
      w2 := Moved(w2, t, call);
      ok := fate.snapshot != Error;
    }

    /** From the List step to the end. */
    method RemoveStopped(sid: Id, fate: SandboxFate, ghost t: Tid, ghost cells: set<StatusStorage>,
                         ghost reach: World -> bool, ghost w: World, ghost v0: View)
      returns (ok: bool, ghost w2: World, ghost v: View, ghost bad: Option<Id>)
      requires containerNameIndex != sandboxNameIndex && sid in sandboxStore.entries
      requires containerNameIndex.Contents().Inverse() && sandboxNameIndex.Contents().Inverse() && Consistent()
      requires forall id :: id in containerStore.entries && containerStore.entries[id].sandbox == sid ==>
        containerStore.entries[id].status in cells
      requires Sees(v0) && SeesSandbox(sid, w) && Depicts(w, v0) && At(reach, t, w, RemovingSb(sid, [], 0, RsList))
      modifies containerd`resources, containerStore, containerNameIndex, sandboxStore, sandboxNameIndex, cells
      ensures containerNameIndex.Contents().Inverse() && sandboxNameIndex.Contents().Inverse()
      ensures Sees(v) && SeesSandbox(sid, w2) && Depicts(w2, v) && CulledView(v0, sid, v)
      ensures reach(w2) && t in w2.calls && w2.calls[t].Finished?
      ensures if ok then w2.calls[t].out.SandboxRemoved? && w2.calls[t].out.sid == sid else w2.calls[t].out == Failed
      ensures Leftovers(v0, v, sid, fate.containers, bad)
      ensures ok <==> AllRemovable(v0, sid, fate.containers) && fate.rootDir && fate.ctr != Error
      ensures ok ==> forall id :: id in v.entries ==> v.entries[id].sandbox != sid
      ensures sandboxStore.entries == if ok then old(sandboxStore.entries) - {sid} else old(sandboxStore.entries)
      ensures sandboxNameIndex.Contents() ==
        if ok then old(sandboxNameIndex.Contents()).ReleaseByKey(sid) else old(sandboxNameIndex.Contents())
    {
      hide Closed, Depicts, CulledView, ConsistentEntries, AllRemovable, Leftovers;
      hide Registrar.Index.Inverse, Registrar.Index.ReleaseByKey;
      var removed, w3, v3, bad3, order := RemoveContainersOf(sid, fate, t, cells, reach, w, v0);
      ok, w2, v, bad := removed, w3, v3, bad3;
      if !ok {
        return;
      }
      var deleted, w4 := DeleteSandboxContainer(fate, sid, t, order, reach, w3, v3);
      ok, w2 := deleted, w4;
      if ok {
        var w5 := DropSandbox(sid, t, order, reach, w4, v3);
        w2 := w5;
      }
    }

    /** RemovePodSandbox of a sandbox that is in the store. */
    method RemoveKnown(sid: Id, fate: SandboxFate, ghost t: Tid, ghost cells: set<StatusStorage>,
                       ghost reach: World -> bool, ghost w: World, ghost v0: View)
      returns (ok: bool, ghost w2: World, ghost v: View, ghost bad: Option<Id>)
      requires containerNameIndex != sandboxNameIndex && sid in sandboxStore.entries
      requires containerNameIndex.Contents().Inverse() && sandboxNameIndex.Contents().Inverse() && Consistent()
      requires forall id :: id in containerStore.entries && containerStore.entries[id].sandbox == sid ==>
        containerStore.entries[id].status in cells
      requires Sees(v0) && SeesSandbox(sid, w) && Depicts(w, v0) && At(reach, t, w, RemovingSb(sid, [], 0, RsGet))
      modifies containerd`resources, containerStore, containerNameIndex, sandboxStore, sandboxNameIndex, cells
      ensures containerNameIndex.Contents().Inverse() && sandboxNameIndex.Contents().Inverse()
      ensures Sees(v) && SeesSandbox(sid, w2) && Depicts(w2, v) && CulledView(v0, sid, v)
      ensures reach(w2) && t in w2.calls && w2.calls[t].Finished?
      ensures if ok then w2.calls[t].out.SandboxRemoved? && w2.calls[t].out.sid == sid else w2.calls[t].out == Failed
      ensures Leftovers(v0, v, sid, fate.containers, bad)
      ensures ok <==>
        CallsWork(fate) && containerd.sandboxTasks[sid] == NoTask && AllRemovable(v0, sid, fate.containers)
      ensures ok ==> forall id :: id in v.entries ==> v.entries[id].sandbox != sid
      ensures sandboxStore.entries == if ok then old(sandboxStore.entries) - {sid} else old(sandboxStore.entries)
      ensures sandboxNameIndex.Contents() ==
        if ok then old(sandboxNameIndex.Contents()).ReleaseByKey(sid) else old(sandboxNameIndex.Contents())
    {
      hide Closed, Depicts, CulledView, ConsistentEntries, AllRemovable, Leftovers;
      hide Registrar.Index.Inverse, Registrar.Index.ReleaseByKey;
      CulledViewNone(v0, sid);
      LeftoversNone(v0, sid, fate.containers);
      v, bad := v0, None;
      var stopped, w1 := CheckStopped(sid, fate, t, reach, w, v0);
      ok, w2 := stopped, w1;
      if ok {
        var removed, w3, v3, bad3 := RemoveStopped(sid, fate, t, cells, reach, w1, v0);
        ok, w2, v, bad := removed, w3, v3, bad3;
      }
    }

    /**
    RemovePodSandbox, uninterrupted.  On success exactly the containers of the
    sandbox are gone, with their names, and the sandbox with its own; a failure
    keeps the sandbox and its name; containers of other sandboxes and their
    names are never touched.  It succeeds exactly if the sandbox has no task, every
    container of it can be removed and no call on it fails.  All of it is done in
    steps of the step system: the call never leaves a set of worlds that its steps
    do not leave.
    */
    method RemovePodSandbox(sid: Id, fate: SandboxFate, ghost t: Tid, ghost cells: set<StatusStorage>,
                            ghost reach: World -> bool, ghost w: World, ghost v0: View)
      returns (r: Result<()>, ghost w2: World, ghost v: View, ghost bad: Option<Id>)
      requires containerNameIndex != sandboxNameIndex
      requires containerNameIndex.Contents().Inverse() && sandboxNameIndex.Contents().Inverse() && Consistent()
      requires forall id :: id in containerStore.entries && containerStore.entries[id].sandbox == sid ==>
        containerStore.entries[id].status in cells
      requires Sees(v0) && SeesSandbox(sid, w) && Depicts(w, v0)
      requires At(reach, t, w, FirstPosition(w, sid))
      modifies containerd`resources, containerStore, containerNameIndex, sandboxStore, sandboxNameIndex, cells
      ensures containerNameIndex.Contents().Inverse() && sandboxNameIndex.Contents().Inverse()
      ensures Sees(v) && SeesSandbox(sid, w2) && Depicts(w2, v) && CulledView(v0, sid, v)
      ensures Leftovers(v0, v, sid, fate.containers, bad)
      ensures reach(w2) && t in w2.calls && w2.calls[t].Finished? && (r.Err? <==> w2.calls[t].out == Failed)
      ensures var known := sid in old(sandboxStore.entries);
        && (known ==> sid in containerd.sandboxTasks)
        && (r.Ok? <==> known ==>
              CallsWork(fate) && containerd.sandboxTasks[sid] == NoTask && AllRemovable(v0, sid, fate.containers))
        && (r.Ok? && known ==> w2.calls[t].out.SandboxRemoved? && w2.calls[t].out.sid == sid)
        && (r.Ok? && known ==> forall id :: id in v.entries ==> v.entries[id].sandbox != sid)
        && (!known ==> r.Ok? && v == v0)
      ensures sandboxStore.entries ==
        if r.Ok? && sid in old(sandboxStore.entries) then old(sandboxStore.entries) - {sid}
        else old(sandboxStore.entries)
      ensures sandboxNameIndex.Contents() ==
        if r.Ok? && sid in old(sandboxStore.entries) then old(sandboxNameIndex.Contents()).ReleaseByKey(sid)
        else old(sandboxNameIndex.Contents())
    {
      hide Closed, Depicts, CulledView, ConsistentEntries, AllRemovable, Leftovers;
      hide Registrar.Index.Inverse, Registrar.Index.ReleaseByKey;
      CulledViewNone(v0, sid);
      LeftoversNone(v0, sid, fate.containers);
      w2, v, bad := w, v0, None;
      var sandbox := sandboxStore.Get(sid);
      if sandbox.None? {
        r := Ok(());
        return;
      }
      var ok, w3, v3, bad3 := RemoveKnown(sid, fate, t, cells, reach, w, v0);
      w2, v, bad := w3, v3, bad3;
      r := if ok then Ok(()) else Err("failed to remove the sandbox");
    }

    /** The same from the arrival of the call: it does to the heap what the run of its steps does to the world. */
    method ServeRemovePodSandbox(sid: Id, fate: SandboxFate, ghost t: Tid, ghost cells: set<StatusStorage>,
                                 ghost w: World, ghost v0: View)
      returns (r: Result<()>, ghost w2: World, ghost v: View, ghost script: seq<Choice>)
      requires containerNameIndex != sandboxNameIndex && t !in w.calls && !w.monitor.Panicked?
      requires containerNameIndex.Contents().Inverse() && sandboxNameIndex.Contents().Inverse() && Consistent()
      requires forall id :: id in containerStore.entries && containerStore.entries[id].sandbox == sid ==>
        containerStore.entries[id].status in cells
      requires Sees(v0) && SeesSandbox(sid, w) && Depicts(w, v0)
      modifies containerd`resources, containerStore, containerNameIndex, sandboxStore, sandboxNameIndex, cells
      ensures Run(w, [Begin(t, Request.RemovePodSandbox(sid))] + Steps(t, script)) == Some(w2)
      ensures Sees(v) && SeesSandbox(sid, w2) && Depicts(w2, v) && CulledView(v0, sid, v)
      ensures t in w2.calls && w2.calls[t].Finished? && (r.Err? <==> w2.calls[t].out == Failed)
    {
      hide Run, Next, Depicts, CulledView, ConsistentEntries, AllRemovable;
      hide Registrar.Index.Inverse, Registrar.Index.ReleaseByKey;
      ghost var first := FirstPosition(w, sid);
      ghost var w1 := Moved(w, t, first);
      LeadsIsClosed(w1, t);
      DepictsMoved(w, v0, t, first);
      hide Leads, Closed;
      var r1, w3, v1, _ := RemovePodSandbox(sid, fate, t, cells, u => Leads(w1, t, u), w1, v0);
      r, w2, v := r1, w3, v1;
      script := RemovalIsRun(w, t, sid, w2);
    }
  }
}
