/**
Concrete runs: the service does what the results speak about, and the three
things that can go wrong do happen.
*/
module ServiceWitness {
  import opened Wrappers
  import opened ContainerStatus
  import opened Service
  import opened ServiceInv
  import opened ServiceSafety
  import opened SandboxSafety
  import opened ExitSafety
  import Registrar

  /** A reply, with pid 7, clock 1 and a listing of container "c". */
  function Say(r: Reply): Choice {
    Choice(r, false, 7, 1, "", ["c"])
  }

  /** Call `t` goes on from `d` to `d2`, both on container `id`. */
  lemma Onward(w: World, t: Tid, id: Id, d: Delta, r: Reply, d2: Delta)
    requires Reachable(Apply(w, t, id, d)) && !w.monitor.Panicked? && OnContainer(d.call) && d.call.id == id
    requires ContainerStep(Apply(w, t, id, d), t, d.call, Say(r)) == Some(d2)
    ensures Reachable(Apply(w, t, id, d2))
  {
    hide ContainerStep, Reachable;
    Extend(Apply(w, t, id, d), Go(t, Say(r)));
    assert Apply(Apply(w, t, id, d), t, id, d2) == Apply(w, t, id, d2);
  }

  lemma OnwardSb(w: World, t: Tid, sid: Id, d: DeltaSb, r: Reply, d2: DeltaSb)
    requires Reachable(ApplySb(w, t, sid, d)) && !w.monitor.Panicked? && OnSandbox(d.call) && d.call.sid == sid
    requires SandboxStep(ApplySb(w, t, sid, d), t, d.call, Say(r)) == Some(d2)
    ensures Reachable(ApplySb(w, t, sid, d2))
  {
    hide SandboxStep, Reachable;
    Extend(ApplySb(w, t, sid, d), Go(t, Say(r)));
    assert ApplySb(ApplySb(w, t, sid, d), t, sid, d2) == ApplySb(w, t, sid, d2);
  }

  // ------------------------------------------------------------ sandbox "s"

  const P := Registrar.Index(map["p" := "s"], map["s" := "p"])

  /** After RunPodSandbox: sandbox "s", named "p", is stored and its task runs. */
  const WITH_SANDBOX := ApplySb(INIT, 0, "s", DeltaSb(Finished(Plain), Sandbox("p", Stored, Running, 0, 0), P))

  lemma SandboxRuns()
    ensures Reachable(WITH_SANDBOX)
  {
    var sb := NewSandbox("p", 0);
    assert Run(INIT, []) == Some(INIT);
    Extend(INIT, Begin(0, RunPodSandbox("p", "s")));
    hide Reachable;
    OnwardSb(INIT, 0, "s", DeltaSb(RunningSb("s", RunReserve), sb, INIT.sbNames), Success,
      DeltaSb(RunningSb("s", RunTask), sb, P));
    var sb2 := sb.(task := Running);
    OnwardSb(INIT, 0, "s", DeltaSb(RunningSb("s", RunTask), sb, P), Success, DeltaSb(RunningSb("s", RunRest), sb2, P));
    OnwardSb(INIT, 0, "s", DeltaSb(RunningSb("s", RunRest), sb2, P), Success, DeltaSb(RunningSb("s", RunAdd), sb2, P));
    OnwardSb(INIT, 0, "s", DeltaSb(RunningSb("s", RunAdd), sb2, P), Success,
      DeltaSb(Finished(Plain), sb2.(place := Stored), P));
  }

  /** An OOM event of the sandbox process reaches the monitor, which panics. */
  lemma MonitorCanPanic()
    ensures exists w :: Reachable(w) && w.monitor.Panicked?
  {
    SandboxRuns();
    hide Reachable;
    Extend(WITH_SANDBOX, Oom("s"));
    var w1 := Next(WITH_SANDBOX, Oom("s")).value;
    Extend(w1, MonitorGo(Say(Success)));
    var w2 := Next(w1, MonitorGo(Say(Success))).value;
    Extend(w2, MonitorGo(Say(Success)));
  }

  // ---------------------------------------------------------- container "c"

  const N := Registrar.Index(map["n" := "c"], map["c" := "n"])

  /** The container after CreateContainer by call 1: all its resources are there. */
  const FRESH := NewObj("n", "s", 1).(
    status := ZERO_STATUS.(createdAt := 1), place := Stored, snapshot := true, rootDir := true, ctr := true)

  lemma ContainerIsCreated(w: World)
    requires Reachable(w) && !w.monitor.Panicked? && InSandboxStore(w, "s") && Fresh(w, "c") && 1 !in w.calls
    requires w.names == Registrar.EMPTY
    ensures Reachable(Apply(w, 1, "c", Delta(Finished(Plain), FRESH, N)))
  {
    var o := NewObj("n", "s", 1);
    Extend(w, Begin(1, CreateContainer("n", "s", "c")));
    hide Reachable;
    Onward(w, 1, "c", Delta(Creating("c", ReserveName), o, w.names), Success, Delta(Creating("c", Acquire(0)), o, N));
    var o1 := o.(snapshot := true);
    Onward(w, 1, "c", Delta(Creating("c", Acquire(0)), o, N), Success, Delta(Creating("c", Acquire(1)), o1, N));
    var o2 := o1.(rootDir := true);
    Onward(w, 1, "c", Delta(Creating("c", Acquire(1)), o1, N), Success, Delta(Creating("c", Acquire(2)), o2, N));
    ContainerIsBuilt(w, o2);
  }

  lemma ContainerIsBuilt(w: World, o2: Obj)
    requires o2 == NewObj("n", "s", 1).(snapshot := true, rootDir := true) && !w.monitor.Panicked?
    requires Reachable(Apply(w, 1, "c", Delta(Creating("c", Acquire(2)), o2, N)))
    ensures Reachable(Apply(w, 1, "c", Delta(Finished(Plain), FRESH, N)))
  {
    hide Reachable;
    var o3 := o2.(ctr := true);
    Onward(w, 1, "c", Delta(Creating("c", Acquire(2)), o2, N), Success, Delta(Creating("c", Build), o3, N));
    var o4 := o3.(status := ZERO_STATUS.(createdAt := 1));
    Onward(w, 1, "c", Delta(Creating("c", Build), o3, N), Success, Delta(Creating("c", AddToStore), o4, N));
    Onward(w, 1, "c", Delta(Creating("c", AddToStore), o4, N), Success, Delta(Finished(Plain), FRESH, N));
  }

  /** The container after StartContainer by call 2. */
  const STARTED := FRESH.(
    status := CommitStart(FRESH.status, 7, 1), starts := 1, tasks := 1, task := Running, initPid := 7)

  const WITH_CONTAINER := Apply(WITH_SANDBOX, 1, "c", Delta(Finished(Plain), FRESH, N))
  const WITH_TASK := Apply(WITH_CONTAINER, 2, "c", Delta(Finished(Plain), STARTED, N))

  lemma ContainerIsStarted()
    ensures Reachable(WITH_TASK)
  {
    assert Reachable(WITH_CONTAINER) by {
      SandboxRuns();
      ContainerIsCreated(WITH_SANDBOX);
    }
    hide Reachable;
    var w := WITH_CONTAINER;
    Extend(w, Begin(2, StartContainer("c")));
    assert Next(w, Begin(2, StartContainer("c"))).value == Apply(w, 2, "c", Delta(Starting("c", Guard), FRESH, N));
    hide Next;
    var o := FRESH.(lock := Some(2), starts := 1);
    SandboxIsChecked(w, o);
    TaskIsReady(w, o);
    TaskIsStarted(w, o);
  }

  lemma SandboxIsChecked(w: World, o: Obj)
    requires o == FRESH.(lock := Some(2), starts := 1) && !w.monitor.Panicked?
    requires "s" in w.sbs && w.sbs["s"] == Sandbox("p", Stored, Running, 0, 0)
    requires Reachable(Apply(w, 2, "c", Delta(Starting("c", Guard), FRESH, N)))
    ensures Reachable(Apply(w, 2, "c", Delta(Starting("c", Pipes), o, N)))
  {
    hide Reachable;
    Onward(w, 2, "c", Delta(Starting("c", Guard), FRESH, N), Success, Delta(Starting("c", SandboxGet), o, N));
    Onward(w, 2, "c", Delta(Starting("c", SandboxGet), o, N), Success, Delta(Starting("c", SandboxTask), o, N));
    Onward(w, 2, "c", Delta(Starting("c", SandboxTask), o, N), Success, Delta(Starting("c", Pipes), o, N));
  }

  lemma TaskIsReady(w: World, o: Obj)
    requires o == FRESH.(lock := Some(2), starts := 1) && !w.monitor.Panicked?
    requires Reachable(Apply(w, 2, "c", Delta(Starting("c", Pipes), o, N)))
    ensures Reachable(Apply(w, 2, "c", Delta(Starting("c", TaskCreate), o, N)))
  {
    hide Reachable;
    Onward(w, 2, "c", Delta(Starting("c", Pipes), o, N), Success, Delta(Starting("c", Loggers), o, N));
    Onward(w, 2, "c", Delta(Starting("c", Loggers), o, N), Success, Delta(Starting("c", Mounts), o, N));
    Onward(w, 2, "c", Delta(Starting("c", Mounts), o, N), Success, Delta(Starting("c", TaskCreate), o, N));
  }

  lemma TaskIsStarted(w: World, o: Obj)
    requires o == FRESH.(lock := Some(2), starts := 1) && !w.monitor.Panicked?
    requires Reachable(Apply(w, 2, "c", Delta(Starting("c", TaskCreate), o, N)))
    ensures Reachable(Apply(w, 2, "c", Delta(Finished(Plain), STARTED, N)))
  {
    hide Reachable;
    var o1 := o.(task := Created, initPid := 7, tasks := 1);
    Onward(w, 2, "c", Delta(Starting("c", TaskCreate), o, N), Success, Delta(Starting("c", TaskStart), o1, N));
    var o2 := o1.(task := Running);
    Onward(w, 2, "c", Delta(Starting("c", TaskStart), o1, N), Success, Delta(Starting("c", Commit), o2, N));
    Onward(w, 2, "c", Delta(Starting("c", Commit), o2, N), Success, Delta(Finished(Plain), STARTED, N));
  }

  /** The task exits with status 42, and the monitor has matched the event to the container. */
  lemma ExitIsMatched() returns (w: World)
    ensures Reachable(w) && w.monitor == Matched(ExitEvent("c", 7, 42, 5))
    ensures w.objs == map["c" := ExitObj(STARTED, 42, 5)]
  {
    ContainerIsStarted();
    hide Reachable;
    var w0 := WITH_TASK;
    Extend(w0, TaskExits("c", 42, 5));
    var w1 := Next(w0, TaskExits("c", 42, 5)).value;
    Extend(w1, MonitorGo(Say(Success)));
    var w2 := Next(w1, MonitorGo(Say(Success))).value;
    Extend(w2, MonitorGo(Say(Success)));
    var w3 := Next(w2, MonitorGo(Say(Success))).value;
    Extend(w3, MonitorGo(Say(Success)));
    w := Next(w3, MonitorGo(Say(Success))).value;
    assert w.objs == map["c" := ExitObj(STARTED, 42, 5)];
  }

  /** A container is created, started and exits, and its exit status is recorded. */
  lemma ContainerRunsAndExits()
    ensures exists w :: && Reachable(w) && "c" in w.objs
                        && w.objs["c"].status.State() == EXITED && w.objs["c"].status.exitCode == 42
  {
    var w := ExitIsMatched();
    hide Reachable;
    Extend(w, MonitorGo(Say(Success)));
    var w1 := Next(w, MonitorGo(Say(Success))).value;
    Extend(w1, MonitorGo(Say(Success)));
    var w2 := Next(w1, MonitorGo(Say(Success))).value;
    assert w2.objs["c"].status.State() == EXITED;
  }

  /** If deleting the task fails, its exit is given up: the container is dead and called running. */
  lemma ExitCanBeGivenUp()
    ensures exists w :: Reachable(w) && ExitLost(w, "c")
                        && w.objs["c"].status.State() == RUNNING && w.objs["c"].task == Stopped
  {
    var w := ExitIsMatched();
    hide Reachable;
    Extend(w, MonitorGo(Say(Error)));
    var w1 := Next(w, MonitorGo(Say(Error))).value;
    ReachableOk(w1);
    LostIsDropped(w1, "c");
  }

  // ------------------------------------------------------ a lingering name

  const STOPPED_SB := Sandbox("p", Stored, NoTask, 0, 0)

  /** StopPodSandbox by call 3, before there is any container. */
  lemma SandboxStops()
    ensures exists seen ::
      Reachable(ApplySb(WITH_SANDBOX, 3, "s", DeltaSb(Finished(SandboxStopped("s", [], seen)), STOPPED_SB, P)))
  {
    SandboxRuns();
    var w := WITH_SANDBOX;
    var seen := Seen({}, {});
    var sb := Sandbox("p", Stored, Running, 0, 0);
    Extend(w, Begin(3, StopPodSandbox("s")));
    assert Next(w, Begin(3, StopPodSandbox("s"))).value ==
      ApplySb(w, 3, "s", DeltaSb(StoppingSb("s", [], 0, seen, SbList), sb, P));
    hide Reachable;
    var empty := Choice(Success, false, 7, 1, "", []);
    var w1 := ApplySb(w, 3, "s", DeltaSb(StoppingSb("s", [], 0, seen, SbList), sb, P));
    Extend(w1, Go(3, empty));
    assert Next(w1, Go(3, empty)).value == ApplySb(w, 3, "s", DeltaSb(StoppingSb("s", [], 0, seen, SbLoop), sb, P));
    SandboxTaskStops(w, seen, sb);
  }

  lemma SandboxTaskStops(w: World, seen: Seen, sb: Sandbox)
    requires !w.monitor.Panicked? && w.sbNames == P && sb == Sandbox("p", Stored, Running, 0, 0)
    requires Reachable(ApplySb(w, 3, "s", DeltaSb(StoppingSb("s", [], 0, seen, SbLoop), sb, P)))
    ensures Reachable(ApplySb(w, 3, "s", DeltaSb(Finished(SandboxStopped("s", [], seen)), STOPPED_SB, P)))
  {
    hide Reachable;
    OnwardSb(w, 3, "s", DeltaSb(StoppingSb("s", [], 0, seen, SbLoop), sb, P), Success,
      DeltaSb(StoppingSb("s", [], 0, seen, SbNetwork), sb, P));
    OnwardSb(w, 3, "s", DeltaSb(StoppingSb("s", [], 0, seen, SbNetwork), sb, P), Success,
      DeltaSb(StoppingSb("s", [], 0, seen, SbUnmount), sb, P));
    OnwardSb(w, 3, "s", DeltaSb(StoppingSb("s", [], 0, seen, SbUnmount), sb, P), Success,
      DeltaSb(StoppingSb("s", [], 0, seen, SbSubscribe), sb, P));
    OnwardSb(w, 3, "s", DeltaSb(StoppingSb("s", [], 0, seen, SbSubscribe), sb, P), Success,
      DeltaSb(StoppingSb("s", [], 0, seen, SbGet), sb, P));
    SandboxTaskIsKilled(w, seen, sb);
  }

  lemma SandboxTaskIsKilled(w: World, seen: Seen, sb: Sandbox)
    requires !w.monitor.Panicked? && w.sbNames == P && sb == Sandbox("p", Stored, Running, 0, 0)
    requires Reachable(ApplySb(w, 3, "s", DeltaSb(StoppingSb("s", [], 0, seen, SbGet), sb, P)))
    ensures Reachable(ApplySb(w, 3, "s", DeltaSb(Finished(SandboxStopped("s", [], seen)), STOPPED_SB, P)))
  {
    hide Reachable;
    OnwardSb(w, 3, "s", DeltaSb(StoppingSb("s", [], 0, seen, SbGet), sb, P), Success,
      DeltaSb(StoppingSb("s", [], 0, seen, SbKill), sb, P));
    OnwardSb(w, 3, "s", DeltaSb(StoppingSb("s", [], 0, seen, SbKill), sb, P), Success,
      DeltaSb(StoppingSb("s", [], 0, seen, SbWait), sb, P));
    OnwardSb(w, 3, "s", DeltaSb(StoppingSb("s", [], 0, seen, SbWait), sb, P), Success,
      DeltaSb(StoppingSb("s", [], 0, seen, SbDelete), sb, P));
    OnwardSb(w, 3, "s", DeltaSb(StoppingSb("s", [], 0, seen, SbDelete), sb, P), Success,
      DeltaSb(Finished(SandboxStopped("s", [], seen)), STOPPED_SB, P));
  }

  lemma RemovalBegins(w: World)
    requires Reachable(w) && !w.monitor.Panicked? && 4 !in w.calls && w.sbNames == P
    requires "s" in w.sbs && w.sbs["s"] == STOPPED_SB
    ensures Reachable(ApplySb(w, 4, "s", DeltaSb(RemovingSb("s", [], 0, RsGet), STOPPED_SB, P)))
  {
    hide Reachable;
    Extend(w, Begin(4, RemovePodSandbox("s")));
    assert w.sbs["s" := STOPPED_SB] == w.sbs;
  }

  /** RemovePodSandbox by call 4 lists container "c". */
  lemma RemovalLists(w: World)
    requires Reachable(w) && !w.monitor.Panicked? && 4 !in w.calls && w.sbNames == P
    requires "s" in w.sbs && w.sbs["s"] == STOPPED_SB && w.objs == map["c" := FRESH]
    ensures Reachable(ApplySb(w, 4, "s", DeltaSb(RemovingSb("s", ["c"], 0, RsLoop), STOPPED_SB, P)))
  {
    RemovalBegins(w);
    hide Reachable;
    OnwardSb(w, 4, "s", DeltaSb(RemovingSb("s", [], 0, RsGet), STOPPED_SB, P), NotFound,
      DeltaSb(RemovingSb("s", [], 0, RsSnapshot), STOPPED_SB, P));
    OnwardSb(w, 4, "s", DeltaSb(RemovingSb("s", [], 0, RsSnapshot), STOPPED_SB, P), Success,
      DeltaSb(RemovingSb("s", [], 0, RsList), STOPPED_SB, P));
    OnwardSb(w, 4, "s", DeltaSb(RemovingSb("s", [], 0, RsList), STOPPED_SB, P), Success,
      DeltaSb(RemovingSb("s", ["c"], 0, RsLoop), STOPPED_SB, P));
  }

  /** Container "c" as call 5, a RemoveContainer, leaves it just before it releases the name. */
  const GONE := FRESH.(
    status := FRESH.status.(removing := true), remover := Some(5),
    snapshot := false, rootDir := false, ctr := false, place := Removed)

  lemma ContainerRemovalBegins(w: World)
    requires Reachable(w) && !w.monitor.Panicked? && 5 !in w.calls && w.names == N && w.objs == map["c" := FRESH]
    ensures Reachable(Apply(w, 5, "c", Delta(Removing("c", SetRemovingPc, Top), FRESH, N)))
  {
    hide Reachable;
    Extend(w, Begin(5, RemoveContainer("c")));
    assert w.objs["c" := FRESH] == w.objs;
  }

  lemma ContainerLeavesStore(w: World)
    requires Reachable(w) && !w.monitor.Panicked? && 5 !in w.calls && w.names == N && w.objs == map["c" := FRESH]
    ensures Reachable(Apply(w, 5, "c", Delta(Removing("c", Release, Top), GONE, N)))
  {
    ContainerRemovalBegins(w);
    hide Reachable;
    var o := FRESH.(status := FRESH.status.(removing := true), remover := Some(5));
    Onward(w, 5, "c", Delta(Removing("c", SetRemovingPc, Top), FRESH, N), Success,
      Delta(Removing("c", Snapshot, Top), o, N));
    var o1 := o.(snapshot := false);
    Onward(w, 5, "c", Delta(Removing("c", Snapshot, Top), o, N), Success, Delta(Removing("c", RootDir, Top), o1, N));
    var o2 := o1.(rootDir := false);
    Onward(w, 5, "c", Delta(Removing("c", RootDir, Top), o1, N), Success, Delta(Removing("c", Ctr, Top), o2, N));
    ContainerIsDeleted(w, o2);
  }

  lemma ContainerIsDeleted(w: World, o2: Obj)
    requires !w.monitor.Panicked? && o2 == GONE.(ctr := true, place := Stored)
    requires Reachable(Apply(w, 5, "c", Delta(Removing("c", Ctr, Top), o2, N)))
    ensures Reachable(Apply(w, 5, "c", Delta(Removing("c", Release, Top), GONE, N)))
  {
    hide Reachable;
    var o3 := o2.(ctr := false);
    Onward(w, 5, "c", Delta(Removing("c", Ctr, Top), o2, N), Success, Delta(Removing("c", DeleteStore, Top), o3, N));
    Onward(w, 5, "c", Delta(Removing("c", DeleteStore, Top), o3, N), Success,
      Delta(Removing("c", Release, Top), GONE, N));
  }

  const AFTER_REMOVAL := DeltaSb(
    Finished(SandboxRemoved("s", ["c"])), STOPPED_SB.(place := Removed, remover := 4), P.ReleaseByKey("s"))

  /** Call 4 finds "c" gone and goes on to remove the sandbox. */
  lemma RemovalGoesOn(w: World)
    requires Reachable(w) && !w.monitor.Panicked? && w.sbNames == P
    requires "s" in w.sbs && w.sbs["s"] == STOPPED_SB && w.objs == map["c" := GONE]
    requires 4 in w.calls && w.calls[4] == RemovingSb("s", ["c"], 0, RsLoop)
    ensures Reachable(ApplySb(w, 4, "s", AFTER_REMOVAL))
  {
    var sb := STOPPED_SB;
    assert ApplySb(w, 4, "s", DeltaSb(RemovingSb("s", ["c"], 0, RsLoop), sb, P)) == w;
    hide Reachable;
    OnwardSb(w, 4, "s", DeltaSb(RemovingSb("s", ["c"], 0, RsLoop), sb, P), Success,
      DeltaSb(RemovingSb("s", ["c"], 1, RsLoop), sb, P));
    OnwardSb(w, 4, "s", DeltaSb(RemovingSb("s", ["c"], 1, RsLoop), sb, P), Success,
      DeltaSb(RemovingSb("s", ["c"], 1, RsRootDir), sb, P));
    SandboxIsRemoved(w, sb);
  }

  lemma SandboxIsRemoved(w: World, sb: Sandbox)
    requires !w.monitor.Panicked? && w.sbNames == P && sb == STOPPED_SB
    requires Reachable(ApplySb(w, 4, "s", DeltaSb(RemovingSb("s", ["c"], 1, RsRootDir), sb, P)))
    ensures Reachable(ApplySb(w, 4, "s", AFTER_REMOVAL))
  {
    hide Reachable;
    OnwardSb(w, 4, "s", DeltaSb(RemovingSb("s", ["c"], 1, RsRootDir), sb, P), Success,
      DeltaSb(RemovingSb("s", ["c"], 1, RsCtr), sb, P));
    OnwardSb(w, 4, "s", DeltaSb(RemovingSb("s", ["c"], 1, RsCtr), sb, P), Success,
      DeltaSb(RemovingSb("s", ["c"], 1, RsDelete), sb, P));
    var sb2 := sb.(place := Removed, remover := 4);
    OnwardSb(w, 4, "s", DeltaSb(RemovingSb("s", ["c"], 1, RsDelete), sb, P), Success,
      DeltaSb(RemovingSb("s", ["c"], 1, RsRelease), sb2, P));
    OnwardSb(w, 4, "s", DeltaSb(RemovingSb("s", ["c"], 1, RsRelease), sb2, P), Success, AFTER_REMOVAL);
  }

  /**
  The name of a listed container can outlive the removal of its sandbox:
  RemovePodSandbox has succeeded, container "c" of it is gone from the store,
  and its name is still reserved.
  */
  lemma NameCanLinger()
    ensures exists w :: Reachable(w) && 4 in w.calls && w.calls[4] == Finished(SandboxRemoved("s", ["c"]))
                        && "c" in w.objs && w.objs["c"].sandbox == "s" && "c" !in Store(w) && "c" in w.names.keyToName
  {
    SandboxStops();
    hide Reachable;
    var seen :|
      Reachable(ApplySb(WITH_SANDBOX, 3, "s", DeltaSb(Finished(SandboxStopped("s", [], seen)), STOPPED_SB, P)));
    var w0 := ApplySb(WITH_SANDBOX, 3, "s", DeltaSb(Finished(SandboxStopped("s", [], seen)), STOPPED_SB, P));
    ContainerIsCreated(w0);
    var w1 := Apply(w0, 1, "c", Delta(Finished(Plain), FRESH, N));
    assert w1.objs == map["c" := FRESH];
    RemovalLists(w1);
    var w2 := ApplySb(w1, 4, "s", DeltaSb(RemovingSb("s", ["c"], 0, RsLoop), STOPPED_SB, P));
    ContainerLeavesStore(w2);
    var w3 := Apply(w2, 5, "c", Delta(Removing("c", Release, Top), GONE, N));
    assert w3.objs == map["c" := GONE];
    RemovalGoesOn(w3);
    assert "c" in ApplySb(w3, 4, "s", AFTER_REMOVAL).objs;
  }
}
