/**
What the imperative handlers are measured by: the steps that one call takes in
the step system when nothing interrupts it.
*/
module HandlerSteps {
  import opened Wrappers
  import opened ContainerStatus
  import opened Service
  import ServiceSafety

  /** An entry of the container store.  Its copies share one status cell. */
  datatype Container = Container(id: Id, sandbox: Id, status: StatusStorage)

  /** What containerd and the file system hold for a container. */
  datatype Resources = Resources(snapshot: bool, rootDir: bool, ctr: bool, task: Task, initPid: nat)

  function ResourcesOf(o: Obj): Resources {
    Resources(o.snapshot, o.rootDir, o.ctr, o.task, o.initPid)
  }

  lemma PutTwice(m: map<Id, Resources>, id: Id, a: Resources, b: Resources)
    ensures m[id := a][id := b] == m[id := b]
  {
  }

  // -------------------------------------------------- a call on its own

  /** One step of a call on a container, as the step system takes it. */
  function StepAlone(t: Tid, sb: Option<Sandbox>, d: Delta, c: Choice): Option<Delta> {
    match d.call
    case Creating(id, pc) => CreateStep(d.obj, d.names, id, pc, c)
    case Starting(id, pc) => StartStep(d.obj, d.names, t, id, sb, pc, c)
    case Removing(id, pc, up) => RemoveStep(d.obj, d.names, t, id, pc, up, c)
    case _ => None
  }

  /** Several steps of call `t` in a row. */
  function Alone(t: Tid, sb: Option<Sandbox>, d: Delta, script: seq<Choice>): Option<Delta> {
    if script == [] then Some(d)
    else
      var last := |script| - 1;
      var before := Alone(t, sb, d, script[..last]);
      if before.None? then None else StepAlone(t, sb, before.value, script[last])
  }

  lemma AloneNot(t: Tid, sb: Option<Sandbox>, d: Delta)
    ensures Alone(t, sb, d, []) == Some(d)
  {
  }

  lemma Stretch(t: Tid, sb: Option<Sandbox>, d: Delta, script: seq<Choice>, e: Delta, c: Choice, f: Delta)
    requires Alone(t, sb, d, script) == Some(e) && StepAlone(t, sb, e, c) == Some(f)
    ensures Alone(t, sb, d, script + [c]) == Some(f)
  {
    hide StepAlone;
    assert (script + [c])[..|script|] == script;
  }

  lemma {:induction false} AloneConcat(t: Tid, sb: Option<Sandbox>, d: Delta, a: seq<Choice>, e: Delta, b: seq<Choice>)
    requires Alone(t, sb, d, a) == Some(e) && Alone(t, sb, e, b).Some?
    ensures Alone(t, sb, d, a + b) == Alone(t, sb, e, b)
    decreases |b|
  {
    hide StepAlone;
    if b == [] {
      assert a + b == a;
    } else {
      var last := |b| - 1;
      AloneConcat(t, sb, d, a, e, b[..last]);
      assert (a + b)[..|a| + last] == a + b[..last];
    }
  }

  function Steps(t: Tid, script: seq<Choice>): seq<Action> {
    if script == [] then [] else Steps(t, script[..|script| - 1]) + [Go(t, script[|script| - 1])]
  }

  /** Is `d` how world `w` has call `t`, its container and the name index? */
  predicate Pictures(w: World, t: Tid, id: Id, sb: Option<Sandbox>, d: Delta) {
    && t in w.calls && w.calls[t] == d.call && id in w.objs && w.objs[id] == d.obj && w.names == d.names
    && sb == if d.obj.sandbox in w.sbs then Some(w.sbs[d.obj.sandbox]) else None
  }

  /** The steps of one container's call, in a row. */
  predicate WorksOn(d: Delta, id: Id) {
    OnContainer(d.call) ==> d.call.id == id
  }

  lemma StartStays(o: Obj, names: Index, t: Tid, id: Id, sb: Option<Sandbox>, pc: StartPc, c: Choice)
    requires StartStep(o, names, t, id, sb, pc, c).Some?
    ensures var d := StartStep(o, names, t, id, sb, pc, c).value; WorksOn(d, id) && d.obj.sandbox == o.sandbox
  {
  }

  lemma CreateStays(o: Obj, names: Index, id: Id, pc: CreatePc, c: Choice)
    requires CreateStep(o, names, id, pc, c).Some?
    ensures var d := CreateStep(o, names, id, pc, c).value; WorksOn(d, id) && d.obj.sandbox == o.sandbox
  {
  }

  lemma RemoveStays(o: Obj, names: Index, t: Tid, id: Id, pc: RemovePc, up: Up, c: Choice)
    requires RemoveStep(o, names, t, id, pc, up, c).Some?
    ensures var d := RemoveStep(o, names, t, id, pc, up, c).value; WorksOn(d, id) && d.obj.sandbox == o.sandbox
  {
  }

  lemma StepAloneStays(t: Tid, sb: Option<Sandbox>, d: Delta, c: Choice, id: Id)
    requires WorksOn(d, id) && StepAlone(t, sb, d, c).Some?
    ensures WorksOn(StepAlone(t, sb, d, c).value, id) && StepAlone(t, sb, d, c).value.obj.sandbox == d.obj.sandbox
  {
    hide StartStep, CreateStep, RemoveStep;
    if d.call.Starting? {
      StartStays(d.obj, d.names, t, id, sb, d.call.spc, c);
    } else if d.call.Creating? {
      CreateStays(d.obj, d.names, id, d.call.cpc, c);
    } else {
      RemoveStays(d.obj, d.names, t, id, d.call.rpc, d.call.up, c);
    }
  }

  /** Such steps are a run of the whole service, in any world that has the call and the container so. */
  lemma {:induction false} AloneIsRun(w: World, t: Tid, id: Id, sb: Option<Sandbox>, d: Delta, script: seq<Choice>)
    requires Pictures(w, t, id, sb, d) && WorksOn(d, id) && !w.monitor.Panicked?
    requires Alone(t, sb, d, script).Some?
    ensures var e := Alone(t, sb, d, script).value;
      Run(w, Steps(t, script)) == Some(Apply(w, t, id, e)) && WorksOn(e, id) && e.obj.sandbox == d.obj.sandbox
    ensures Reachable(w) ==> Reachable(Apply(w, t, id, Alone(t, sb, d, script).value))
    decreases |script|
  {
    hide StepAlone, Next, Reachable;
    if script == [] {
      assert Apply(w, t, id, d) == w by {
        assert w.calls[t := d.call] == w.calls && w.objs[id := d.obj] == w.objs;
      }
    } else {
      var last := |script| - 1;
      AloneIsRun(w, t, id, sb, d, script[..last]);
      var e := Alone(t, sb, d, script[..last]).value;
      StepAloneStays(t, sb, e, script[last], id);
      NextAlone(w, t, id, sb, e, script[last]);
      ServiceSafety.RunAppend(w, Steps(t, script[..last]), Go(t, script[last]));
      if Reachable(w) {
        ServiceSafety.Extend(Apply(w, t, id, e), Go(t, script[last]));
      }
    }
  }

  lemma NextAlone(w: World, t: Tid, id: Id, sb: Option<Sandbox>, e: Delta, c: Choice)
    requires WorksOn(e, id) && !w.monitor.Panicked? && StepAlone(t, sb, e, c).Some?
    requires sb == if e.obj.sandbox in w.sbs then Some(w.sbs[e.obj.sandbox]) else None
    ensures Next(Apply(w, t, id, e), Go(t, c)) == Some(Apply(w, t, id, StepAlone(t, sb, e, c).value))
  {
    hide StartStep, CreateStep, RemoveStep;
    var w2 := Apply(w, t, id, e);
    var f := StepAlone(t, sb, e, c).value;
    assert ContainerStep(w2, t, e.call, c) == Some(f);
    assert Apply(w2, t, id, f) == Apply(w, t, id, f);
  }

  lemma GuardAlone(t: Tid, sb: Option<Sandbox>, id: Id, o: Obj, names: Index, c: Choice)
    requires o.lock.None?
    ensures StepAlone(t, sb, Delta(Starting(id, Guard), o, names), c) == Some(
      if MayStart(o.status) then Delta(Starting(id, SandboxGet), o.(lock := Some(t), starts := o.starts + 1), names)
      else Delta(Finished(Failed), o, names))
  {
  }

  lemma CommitAlone(t: Tid, sb: Option<Sandbox>, id: Id, o: Obj, names: Index, c: Choice)
    requires c.now != 0
    ensures StepAlone(t, sb, Delta(Starting(id, Commit), o, names), c) ==
      Some(Delta(Finished(Plain), o.(status := CommitStart(o.status, o.initPid, c.now), lock := None), names))
    ensures StepAlone(t, sb, Delta(Starting(id, CommitFailure), o, names), c) ==
      Some(Delta(Finished(Failed), o.(status := FailStart(o.status, c.now, c.msg), lock := None), names))
  {
  }

  /** The task after the calls that create it, start it and delete it again. */
  function WithTask(o: Obj, task: Task, pid: nat): Obj {
    o.(task := task, initPid := pid, exit := None, tasks := o.tasks + 1)
  }

  lemma LaunchAlone(t: Tid, sb: Option<Sandbox>, id: Id, o: Obj, names: Index, c: Choice)
    ensures c.reply != Success || o.snapshot ==>
      StepAlone(t, sb, Delta(Starting(id, Mounts), o, names), c) == Some(Delta(
        Starting(id, if c.reply == Success then TaskCreate else CommitFailure), o, names))
    ensures c.reply != Success || (o.task == NoTask && c.pid != 0) ==>
      StepAlone(t, sb, Delta(Starting(id, TaskCreate), o, names), c) == Some(
        if c.reply == Success then Delta(Starting(id, TaskStart), WithTask(o, Created, c.pid), names)
        else Delta(Starting(id, CommitFailure), o, names))
    ensures o.task == Created ==> StepAlone(t, sb, Delta(Starting(id, TaskStart), o, names), c) == Some(
      if c.reply == Success then Delta(Starting(id, Commit), o.(task := Running), names)
      else Delta(Starting(id, CleanupTask), o, names))
    ensures o.task == Created && c.reply != NotFound ==>
      StepAlone(t, sb, Delta(Starting(id, CleanupTask), o, names), c) == Some(Delta(
        Starting(id, CommitFailure), if c.reply == Error && !c.effect then o else o.(task := NoTask), names))
  {
  }

  lemma RemovalAlone(t: Tid, sb: Option<Sandbox>, id: Id, up: Up, o: Obj, names: Index, c: Choice)
    ensures o.lock.None? && SetRemoving(o.status).Err? ==>
      StepAlone(t, sb, Delta(Removing(id, SetRemovingPc, up), o, names), c) == Some(Delta(Finished(Failed), o, names))
    ensures o.lock.None? && SetRemoving(o.status).Ok? ==>
      StepAlone(t, sb, Delta(Removing(id, SetRemovingPc, up), o, names), c) == Some(Delta(
        Removing(id, Snapshot, up), o.(status := SetRemoving(o.status).value, remover := Some(t)), names))
  {
  }

  lemma ResetAlone(t: Tid, sb: Option<Sandbox>, id: Id, up: Up, o: Obj, names: Index, c: Choice)
    requires o.lock.None?
    ensures StepAlone(t, sb, Delta(Removing(id, Reset, up), o, names), c) == Some(Delta(
      Finished(Failed), o.(status := ResetRemoving(o.status), remover := None), names))
  {
  }

  /** The last two steps: the store entry, then the name. */
  lemma DropAlone(t: Tid, sb: Option<Sandbox>, id: Id, up: Up, o: Obj, names: Index, c: Choice)
    ensures Alone(t, sb, Delta(Removing(id, DeleteStore, up), o, names), [c, c]) ==
      Some(Delta(AfterRemove(up), o.(place := Removed), names.ReleaseByKey(id)))
  {
    var d := Delta(Removing(id, DeleteStore, up), o, names);
    var e := Delta(Removing(id, Release, up), o.(place := Removed), names);
    AloneNot(t, sb, d);
    Stretch(t, sb, d, [], d, c, e);
    Stretch(t, sb, d, [] + [c], e, c, Delta(AfterRemove(up), o.(place := Removed), names.ReleaseByKey(id)));
    assert [] + [c] + [c] == [c, c];
  }

  lemma SnapshotAlone(t: Tid, sb: Option<Sandbox>, id: Id, up: Up, o: Obj, names: Index, c: Choice)
    ensures c.reply != NotFound || !o.snapshot ==>
      StepAlone(t, sb, Delta(Removing(id, Snapshot, up), o, names), c) == Some(Delta(
        Removing(id, if c.reply == Error then Reset else RootDir, up),
        o.(snapshot := o.snapshot && c.reply == Error && !c.effect), names))
  {
  }

  lemma RootDirAlone(t: Tid, sb: Option<Sandbox>, id: Id, up: Up, o: Obj, names: Index, c: Choice)
    ensures StepAlone(t, sb, Delta(Removing(id, RootDir, up), o, names), c) == Some(Delta(
      Removing(id, if c.reply == Success then Ctr else Reset, up),
      o.(rootDir := o.rootDir && c.reply != Success && !c.effect), names))
  {
  }

  lemma CtrAlone(t: Tid, sb: Option<Sandbox>, id: Id, up: Up, o: Obj, names: Index, c: Choice)
    ensures c.reply != NotFound || !o.ctr ==>
      StepAlone(t, sb, Delta(Removing(id, Ctr, up), o, names), c) == Some(Delta(
        Removing(id, if c.reply == Error then Reset else DeleteStore, up),
        o.(ctr := o.ctr && c.reply == Error && !c.effect), names))
  {
  }

  // --------------------------------------------- the event monitor on its own

  /** Several steps of handleEvent in a row, once the container is found. */
  function MonitorAlone(d: MonitorDelta, script: seq<Choice>): Option<MonitorDelta> {
    if script == [] then Some(d)
    else
      var last := |script| - 1;
      var before := MonitorAlone(d, script[..last]);
      if before.None? || !Handles(before.value.monitor) then None
      else HandleStep(before.value.obj, before.value.monitor, script[last])
  }

  predicate Handles(m: Monitor) {
    m.Found? || m.Matched? || m.Deleted?
  }

  lemma StretchMonitor(d: MonitorDelta, script: seq<Choice>, e: MonitorDelta, c: Choice, f: MonitorDelta)
    requires MonitorAlone(d, script) == Some(e) && Handles(e.monitor) && HandleStep(e.obj, e.monitor, c) == Some(f)
    ensures MonitorAlone(d, script + [c]) == Some(f)
  {
    hide HandleStep;
    assert (script + [c])[..|script|] == script;
  }

  function MonitorSteps(script: seq<Choice>): seq<Action> {
    if script == [] then [] else MonitorSteps(script[..|script| - 1]) + [MonitorGo(script[|script| - 1])]
  }

  predicate About(m: Monitor, id: Id) {
    Handles(m) ==> m.ev.id == id
  }

  lemma NextMonitorAlone(w: World, id: Id, e: MonitorDelta, c: Choice)
    requires Handles(e.monitor) && e.monitor.ev.id == id && HandleStep(e.obj, e.monitor, c).Some?
    ensures var f := HandleStep(e.obj, e.monitor, c).value;
      && Next(ApplyMonitor(w, id, e), MonitorGo(c)) == Some(ApplyMonitor(w, id, f))
      && About(f.monitor, id) && (Handles(f.monitor) || f.monitor == Idle)
  {
    var f := HandleStep(e.obj, e.monitor, c).value;
    var w2 := ApplyMonitor(w, id, e);
    assert ApplyMonitor(w2, id, f) == ApplyMonitor(w, id, f);
  }

  /** Such steps are a run of the whole service. */
  lemma {:induction false} MonitorAloneIsRun(w: World, id: Id, d: MonitorDelta, script: seq<Choice>)
    requires id in w.objs && w.objs[id] == d.obj && w.monitor == d.monitor && Handles(d.monitor) && About(d.monitor, id)
    requires MonitorAlone(d, script).Some?
    ensures var e := MonitorAlone(d, script).value;
      && Run(w, MonitorSteps(script)) == Some(ApplyMonitor(w, id, e))
      && About(e.monitor, id) && (Handles(e.monitor) || e.monitor == Idle)
    ensures Reachable(w) ==> Reachable(ApplyMonitor(w, id, MonitorAlone(d, script).value))
    decreases |script|
  {
    hide HandleStep, Next, Reachable;
    if script == [] {
      assert ApplyMonitor(w, id, d) == w by {
        assert w.objs[id := d.obj] == w.objs;
      }
    } else {
      var last := |script| - 1;
      MonitorAloneIsRun(w, id, d, script[..last]);
      var e := MonitorAlone(d, script[..last]).value;
      NextMonitorAlone(w, id, e, script[last]);
      ServiceSafety.RunAppend(w, MonitorSteps(script[..last]), MonitorGo(script[last]));
      if Reachable(w) {
        ServiceSafety.Extend(ApplyMonitor(w, id, e), MonitorGo(script[last]));
      }
    }
  }

  // ------------------------------------------------- removing a sandbox's containers

  /** Entries under their own ids, ids known to containerd, and no shared status cells. */
  ghost predicate ConsistentEntries(entries: map<Id, Container>, res: map<Id, Resources>) {
    && (forall id :: id in entries ==> entries[id].id == id && id in res)
    && (forall i, j :: i in entries && j in entries && i != j ==> entries[i].status != entries[j].status)
  }

  /**
  From the entries `all`, some containers of sandbox `sid` are gone, with their
  names; the containers of other sandboxes, their resources and all other names are as they were.
  */
  ghost predicate Culled(all: map<Id, Container>, res: map<Id, Resources>, names0: Index, sid: Id,
                         now: map<Id, Container>, res2: map<Id, Resources>, names: Index) {
    && ConsistentEntries(all, res2)
    && EntriesCulled(all, res, sid, now, res2)
    && NamesCulled(all, names0.keyToName, now, names.keyToName)
  }

  ghost predicate EntriesCulled(all: map<Id, Container>, res: map<Id, Resources>, sid: Id,
                                now: map<Id, Container>, res2: map<Id, Resources>) {
    && (forall id :: id in now ==> id in all && now[id] == all[id])
    && (forall id :: id in all && all[id].sandbox != sid ==>
          id in now && id in res && id in res2 && res2[id] == res[id])
  }

  lemma EntriesCulledStep(all: map<Id, Container>, res: map<Id, Resources>, sid: Id, now: map<Id, Container>,
                          res2: map<Id, Resources>, id: Id, res3: map<Id, Resources>)
    requires ConsistentEntries(all, res2) && EntriesCulled(all, res, sid, now, res2)
    requires id in all && all[id].sandbox == sid
    requires res3.Keys == res2.Keys && forall x :: x in res3 && x != id ==> res3[x] == res2[x]
    ensures ConsistentEntries(all, res3)
    ensures EntriesCulled(all, res, sid, now, res3) && EntriesCulled(all, res, sid, now - {id}, res3)
  {
    assert forall x :: x in res2 <==> x in res3;
  }

  /** Exactly the names of the containers that are gone have been released. */
  ghost predicate NamesCulled(all: map<Id, Container>, before: map<Id, string>, now: map<Id, Container>,
                              after: map<Id, string>) {
    && (forall id :: id in all && id !in now ==> id !in after)
    && (forall id :: id in before && (id in all ==> id in now) ==> id in after && after[id] == before[id])
  }

  lemma NamesCulledStep(all: map<Id, Container>, before: map<Id, string>, now: map<Id, Container>, after: map<Id,
                        string>, id: Id)
    requires NamesCulled(all, before, now, after) && id in all
    ensures NamesCulled(all, before, now - {id}, after - {id})
  {
  }

  lemma CulledNone(all: map<Id, Container>, res: map<Id, Resources>, sid: Id, names: Index)
    requires ConsistentEntries(all, res)
    ensures Culled(all, res, names, sid, all, res, names)
  {
  }

  lemma CulledFacts(all: map<Id, Container>, res: map<Id, Resources>, names0: Index, sid: Id,
                    now: map<Id, Container>, res2: map<Id, Resources>, names: Index)
    requires Culled(all, res, names0, sid, now, res2, names)
    ensures ConsistentEntries(now, res2) && forall id :: id in now ==> id in all && now[id] == all[id]
  {
  }

  lemma CulledStep(all: map<Id, Container>, res: map<Id, Resources>, names0: Index, sid: Id, now: map<Id, Container>,
                   res2: map<Id, Resources>, names: Index, id: Id, removed: bool, res3: map<Id, Resources>)
    requires Culled(all, res, names0, sid, now, res2, names) && id in all && all[id].sandbox == sid
    requires res3.Keys == res2.Keys && forall x :: x in res3 && x != id ==> res3[x] == res2[x]
    ensures Culled(all, res, names0, sid, if removed then now - {id} else now, res3,
      if removed && id in now then names.ReleaseByKey(id) else names)
  {
    EntriesCulledStep(all, res, sid, now, res2, id, res3);
    NamesCulledStep(all, names0.keyToName, now, names.keyToName, id);
    hide EntriesCulled, NamesCulled, ConsistentEntries;
    if id !in now {
      assert now - {id} == now;
    }
  }

  // --------------------------------------------------- a sandbox call on its own

  /** A set of worlds that the steps of call `t` do not leave. */
  ghost predicate Closed(reach: World -> bool, t: Tid) {
    forall w, c :: reach(w) && Next(w, Go(t, c)).Some? ==> reach(Next(w, Go(t, c)).value)
  }

  /** The smallest such set around `w`: what the steps of `t` alone lead to. */
  ghost predicate Leads(w: World, t: Tid, w2: World) {
    exists script :: Run(w, Steps(t, script)) == Some(w2)
  }

  lemma LeadsIsClosed(w: World, t: Tid)
    ensures Leads(w, t, w) && Closed(u => Leads(w, t, u), t)
  {
    assert Run(w, Steps(t, [])) == Some(w);
    forall u, c | Leads(w, t, u) && Next(u, Go(t, c)).Some?
      ensures Leads(w, t, Next(u, Go(t, c)).value)
    {
      LeadsOn(w, t, u, c);
    }
  }

  /** The reachable worlds are such a set, so whatever is proved of them holds after a call that stays in it. */
  lemma ReachableIsClosed(t: Tid)
    ensures Closed(u => Reachable(u), t)
  {
    forall u, c | Reachable(u) && Next(u, Go(t, c)).Some?
      ensures Reachable(Next(u, Go(t, c)).value)
    {
      ServiceSafety.Extend(u, Go(t, c));
    }
  }

  lemma LeadsOn(w: World, t: Tid, w2: World, c: Choice)
    requires Leads(w, t, w2) && Next(w2, Go(t, c)).Some?
    ensures Leads(w, t, Next(w2, Go(t, c)).value)
  {
    hide Next;
    var script :| Run(w, Steps(t, script)) == Some(w2);
    ServiceSafety.RunAppend(w, Steps(t, script), Go(t, c));
    assert (script + [c])[..|script|] == script;
    assert Steps(t, script + [c]) == Steps(t, script) + [Go(t, c)];
  }

  lemma {:induction false} ReachAlone(reach: World -> bool, t: Tid, w: World, id: Id, sb: Option<Sandbox>, d: Delta,
                                      script: seq<Choice>)
    requires Closed(reach, t) && reach(w) && Pictures(w, t, id, sb, d) && WorksOn(d, id) && !w.monitor.Panicked?
    requires Alone(t, sb, d, script).Some?
    ensures reach(Apply(w, t, id, Alone(t, sb, d, script).value))
    decreases |script|
  {
    hide StepAlone, Next;
    if script == [] {
      AloneIsRun(w, t, id, sb, d, script);
    } else {
      var last := |script| - 1;
      ReachAlone(reach, t, w, id, sb, d, script[..last]);
      AloneIsRun(w, t, id, sb, d, script[..last]);
      var e := Alone(t, sb, d, script[..last]).value;
      NextAlone(w, t, id, sb, e, script[last]);
      assert reach(Next(Apply(w, t, id, e), Go(t, script[last])).value);
    }
  }

  /** Only the position of call `t` changes. */
  function Moved(w: World, t: Tid, call: Call): World {
    w.(calls := w.calls[t := call])
  }

  /** A step of a sandbox call that changes nothing but its position. */
  lemma ReachMove(reach: World -> bool, t: Tid, w: World, c: Choice, call: Call)
    requires Closed(reach, t) && reach(w) && !w.monitor.Panicked?
    requires t in w.calls && OnSandbox(w.calls[t]) && w.calls[t].sid in w.sbs
    requires SandboxStep(w, t, w.calls[t], c) == Some(DeltaSb(call, w.sbs[w.calls[t].sid], w.sbNames))
    ensures reach(Moved(w, t, call))
  {
    hide SandboxStep;
    var sid := w.calls[t].sid;
    assert w.sbs[sid := w.sbs[sid]] == w.sbs;
    assert Next(w, Go(t, c)) == Some(Moved(w, t, call));
  }

  /** The heap, as far as containers are concerned. */
  datatype View = View(entries: map<Id, Container>, statuses: map<Id, Status>, res: map<Id, Resources>, names: Index)

  /** Container `o` of the step system looks like entry `id` of the heap. */
  predicate Alike(v: View, id: Id, o: Obj)
    requires id in v.entries
  {
    && v.entries[id].id == id && v.entries[id].sandbox == o.sandbox
    && id in v.statuses && v.statuses[id] == o.status
    && id in v.res && v.res[id] == ResourcesOf(o)
    && o.lock.None?
  }

  /** World `w` has exactly the containers that the heap has, none of them being started, and the same names. */
  ghost predicate Depicts(w: World, v: View) {
    && (forall id :: id in v.entries <==> InStore(w, id))
    && (forall id :: id in v.entries ==> Alike(v, id, w.objs[id]))
    && v.names == w.names
  }

  lemma DepictsMoved(w: World, v: View, t: Tid, call: Call)
    requires Depicts(w, v)
    ensures Depicts(Moved(w, t, call), v)
  {
    assert forall id :: InStore(Moved(w, t, call), id) <==> InStore(w, id);
  }

  /** The removal of container `id` changes its entry, which becomes `o` or goes, and nothing else. */
  ghost predicate Changes(v: View, v2: View, id: Id, o: Obj, gone: bool) {
    && v2.entries == (if gone then v.entries - {id} else v.entries)
    && (forall x :: x in v2.entries && x != id ==>
          x in v.statuses && x in v2.statuses && v2.statuses[x] == v.statuses[x])
    && v2.res.Keys == v.res.Keys && (forall x :: x in v.res && x != id ==> v2.res[x] == v.res[x])
    && (o.place == Stored <==> !gone)
    && (!gone && id in v2.entries ==> Alike(v2, id, o))
  }

  lemma ChangesBecause(v: View, v2: View, id: Id, o: Obj, gone: bool)
    requires v2.entries == (if gone then v.entries - {id} else v.entries) && v.entries.Keys <= v.statuses.Keys
    requires id in v2.statuses && v2.statuses == v.statuses[id := v2.statuses[id]]
    requires id in v.res && id in v2.res && v2.res == v.res[id := v2.res[id]]
    requires (o.place == Stored <==> !gone) && (!gone && id in v2.entries ==> Alike(v2, id, o))
    ensures Changes(v, v2, id, o, gone)
  {
    assert forall x :: x in v2.entries ==> x in v.entries.Keys;
  }

  lemma AlikeStill(v: View, v2: View, id: Id, o: Obj, gone: bool, x: Id, p: Obj)
    requires Changes(v, v2, id, o, gone) && x != id && x in v2.entries && x in v.entries && Alike(v, x, p)
    ensures Alike(v2, x, p)
  {
    assert x in v.res.Keys;
  }

  lemma AppliedStore(w: World, v: View, t: Tid, id: Id, e: Delta, v2: View, gone: bool)
    requires (forall x :: x in v.entries <==> InStore(w, x)) && id in v.entries && (e.obj.place == Stored <==> !gone)
    requires v2.entries == if gone then v.entries - {id} else v.entries
    ensures forall x :: x in v2.entries <==> InStore(Apply(w, t, id, e), x)
  {
    forall x
      ensures x in v2.entries <==> InStore(Apply(w, t, id, e), x)
    {
      if x != id {
        assert InStore(Apply(w, t, id, e), x) <==> InStore(w, x);
      }
    }
  }

  lemma DepictsApplied(w: World, v: View, t: Tid, id: Id, e: Delta, v2: View, gone: bool)
    requires Depicts(w, v) && id in v.entries && e.names == v2.names && Changes(v, v2, id, e.obj, gone)
    ensures Depicts(Apply(w, t, id, e), v2)
  {
    var w2 := Apply(w, t, id, e);
    AppliedStore(w, v, t, id, e, v2, gone);
    forall x | x in v2.entries
      ensures x in w2.objs && Alike(v2, x, w2.objs[x])
    {
      assert InStore(w2, x) && x in v.entries;
      if x != id {
        hide Changes;
        assert Alike(v, x, w.objs[x]);
        AlikeStill(v, v2, id, e.obj, gone, x, w.objs[x]);
      }
    }
    hide Alike, Changes;
  }

  function Ids(list: seq<Container>): seq<Id> {
    seq(|list|, i requires 0 <= i < |list| => list[i].id)
  }

  /** A listing of the entries is a listing of the store. */
  lemma ListingLists(w: World, v: View, list: seq<Container>)
    requires Depicts(w, v) && Listing(list, v.entries)
    ensures Lists(w, Ids(list))
  {
    var order := Ids(list);
    forall id | id in w.objs && w.objs[id].place == Stored
      ensures id in order
    {
      assert InStore(w, id) && Alike(v, id, w.objs[id]);
      var i :| 0 <= i < |list| && list[i] == v.entries[id];
      assert order[i] == id;
    }
  }

  // ---------------------------------------------------- the steps of RemovePodSandbox

  /** Call `t` has come to `call`, without leaving the worlds `reach`. */
  ghost predicate At(reach: World -> bool, t: Tid, w: World, call: Call) {
    Closed(reach, t) && reach(w) && !w.monitor.Panicked? && t in w.calls && w.calls[t] == call
  }

  function Saying(reply: Reply, order: seq<Id>): Choice {
    Choice(reply, false, 0, 0, "", order)
  }

  lemma GetMove(reach: World -> bool, t: Tid, w: World, sid: Id, reply: Reply)
    requires At(reach, t, w, RemovingSb(sid, [], 0, RsGet)) && sid in w.sbs
    requires reply == NotFound ==> w.sbs[sid].task == NoTask
    ensures var call := if reply == NotFound then RemovingSb(sid, [], 0, RsSnapshot) else Finished(Failed);
      At(reach, t, Moved(w, t, call), call)
  {
    ReachMove(reach, t, w, Saying(reply, []),
      if reply == NotFound then RemovingSb(sid, [], 0, RsSnapshot) else Finished(Failed));
  }

  lemma SnapshotMove(reach: World -> bool, t: Tid, w: World, sid: Id, reply: Reply)
    requires At(reach, t, w, RemovingSb(sid, [], 0, RsSnapshot)) && sid in w.sbs
    ensures var call := if reply == Error then Finished(Failed) else RemovingSb(sid, [], 0, RsList);
      At(reach, t, Moved(w, t, call), call)
  {
    ReachMove(reach, t, w, Saying(reply, []),
      if reply == Error then Finished(Failed) else RemovingSb(sid, [], 0, RsList));
  }

  lemma ListMove(reach: World -> bool, t: Tid, w: World, sid: Id, order: seq<Id>)
    requires At(reach, t, w, RemovingSb(sid, [], 0, RsList)) && sid in w.sbs && Lists(w, order)
    ensures At(reach, t, Moved(w, t, RemovingSb(sid, order, 0, RsLoop)), RemovingSb(sid, order, 0, RsLoop))
  {
    hide Lists;
    ReachMove(reach, t, w, Saying(Success, order), RemovingSb(sid, order, 0, RsLoop));
  }

  /** Where the loop goes from position `n`. */
  function LoopCall(w: World, sid: Id, order: seq<Id>, n: nat): Call
    requires n < |order| ==> order[n] in w.objs
  {
    if n >= |order| then RemovingSb(sid, order, n, RsRootDir)
    else if w.objs[order[n]].sandbox != sid || w.objs[order[n]].place != Stored then
      RemovingSb(sid, order, n + 1, RsLoop)
    else Removing(order[n], SetRemovingPc, RemoveLoop(sid, order, n))
  }

  lemma LoopMove(reach: World -> bool, t: Tid, w: World, sid: Id, order: seq<Id>, n: nat)
    requires At(reach, t, w, RemovingSb(sid, order, n, RsLoop)) && sid in w.sbs && (n < |order| ==> order[n] in w.objs)
    ensures var call := LoopCall(w, sid, order, n); At(reach, t, Moved(w, t, call), call)
  {
    ReachMove(reach, t, w, Saying(Success, []), LoopCall(w, sid, order, n));
  }

  lemma CleanupMove(reach: World -> bool, t: Tid, w: World, sid: Id, order: seq<Id>, n: nat, pc: RemoveSbPc,
                    reply: Reply)
    requires At(reach, t, w, RemovingSb(sid, order, n, pc)) && sid in w.sbs && (pc == RsRootDir || pc == RsCtr)
    ensures var ok := if pc == RsRootDir then reply == Success else reply != Error;
      var next := if pc == RsRootDir then RsCtr else RsDelete;
      var call := if !ok then Finished(Failed) else RemovingSb(sid, order, n, next);
      At(reach, t, Moved(w, t, call), call)
  {
    var ok := if pc == RsRootDir then reply == Success else reply != Error;
    ReachMove(reach, t, w, Saying(reply, []),
      if !ok then Finished(Failed) else RemovingSb(sid, order, n, if pc == RsRootDir then RsCtr else RsDelete));
  }

  /** The world after the last two steps: the sandbox is out of its store, then its name out of the index. */
  function Dropped(w: World, t: Tid, sid: Id, order: seq<Id>): World
    requires sid in w.sbs
  {
    ApplySb(w, t, sid, DeltaSb(Finished(SandboxRemoved(sid, order)),
      w.sbs[sid].(place := Removed, remover := if w.sbs[sid].place == Stored then t else w.sbs[sid].remover),
      w.sbNames.ReleaseByKey(sid)))
  }

  lemma DropMove(reach: World -> bool, t: Tid, w: World, sid: Id, order: seq<Id>, n: nat)
    requires At(reach, t, w, RemovingSb(sid, order, n, RsDelete)) && sid in w.sbs
    ensures At(reach, t, Dropped(w, t, sid, order), Finished(SandboxRemoved(sid, order)))
  {
    var c := Saying(Success, []);
    var sb := w.sbs[sid].(place := Removed, remover := if w.sbs[sid].place == Stored then t else w.sbs[sid].remover);
    var w1 := ApplySb(w, t, sid, DeltaSb(RemovingSb(sid, order, n, RsRelease), sb, w.sbNames));
    assert Next(w, Go(t, c)) == Some(w1);
    var w2 := Dropped(w, t, sid, order);
    assert w2 == ApplySb(w1, t, sid, DeltaSb(Finished(SandboxRemoved(sid, order)), sb, w.sbNames.ReleaseByKey(sid)));
    assert Next(w1, Go(t, c)) == Some(w2);
  }

  function SandboxOf(w: World, id: Id): Option<Sandbox>
    requires id in w.objs
  {
    if w.objs[id].sandbox in w.sbs then Some(w.sbs[w.objs[id].sandbox]) else None
  }

  /** One turn of the loop: container `id`, at position `n` of the list, is removed by the steps `script`. */
  lemma TurnRefines(reach: World -> bool, t: Tid, w: World, sid: Id, order: seq<Id>, n: nat, id: Id, v: View,
                    script: seq<Choice>, e: Delta, v2: View, ok: bool)
    requires At(reach, t, w, RemovingSb(sid, order, n, RsLoop)) && sid in w.sbs && Depicts(w, v)
    requires n < |order| && order[n] == id && id in v.entries && v.entries[id].sandbox == sid && id in w.objs
    requires var d := Delta(Removing(id, SetRemovingPc, RemoveLoop(sid, order, n)), w.objs[id], w.names);
      Alone(t, SandboxOf(w, id), d, script) == Some(e)
    requires e.call == if ok then AfterRemove(RemoveLoop(sid, order, n)) else Finished(Failed)
    requires e.names == v2.names && Changes(v, v2, id, e.obj, ok)
    ensures At(reach, t, Apply(w, t, id, e), if ok then RemovingSb(sid, order, n + 1, RsLoop) else Finished(Failed))
    ensures Depicts(Apply(w, t, id, e), v2)
  {
    hide Alone, Closed, Changes, Alike, Depicts;
    var call := Removing(id, SetRemovingPc, RemoveLoop(sid, order, n));
    var w1 := Moved(w, t, call);
    EntryRefines(reach, t, w, sid, order, n, id, v);
    ReachAlone(reach, t, w1, id, SandboxOf(w, id), Delta(call, w.objs[id], w.names), script);
    DepictsApplied(w1, v, t, id, e, v2, ok);
    assert Apply(w1, t, id, e) == Apply(w, t, id, e);
  }

  /** The loop comes to container `id` of its sandbox and calls RemoveContainer. */
  lemma EntryRefines(reach: World -> bool, t: Tid, w: World, sid: Id, order: seq<Id>, n: nat, id: Id, v: View)
    requires At(reach, t, w, RemovingSb(sid, order, n, RsLoop)) && sid in w.sbs && Depicts(w, v)
    requires n < |order| && order[n] == id && id in v.entries && v.entries[id].sandbox == sid
    ensures var call := Removing(id, SetRemovingPc, RemoveLoop(sid, order, n));
      At(reach, t, Moved(w, t, call), call) && Depicts(Moved(w, t, call), v)
  {
    assert InStore(w, id) && Alike(v, id, w.objs[id]);
    LoopMove(reach, t, w, sid, order, n);
    hide Closed;
    DepictsMoved(w, v, t, Removing(id, SetRemovingPc, RemoveLoop(sid, order, n)));
  }

  /** A container of another sandbox is passed over. */
  lemma SkipRefines(reach: World -> bool, t: Tid, w: World, sid: Id, order: seq<Id>, n: nat, v: View)
    requires At(reach, t, w, RemovingSb(sid, order, n, RsLoop)) && sid in w.sbs && Depicts(w, v)
    requires n < |order| && order[n] in v.entries && v.entries[order[n]].sandbox != sid
    ensures var call := RemovingSb(sid, order, n + 1, RsLoop);
      At(reach, t, Moved(w, t, call), call) && Depicts(Moved(w, t, call), v)
  {
    assert InStore(w, order[n]) && Alike(v, order[n], w.objs[order[n]]);
    LoopMove(reach, t, w, sid, order, n);
    hide Closed;
    DepictsMoved(w, v, t, RemovingSb(sid, order, n + 1, RsLoop));
  }

  /** From the view `v0`, containers of sandbox `sid` are gone; every container that is left has the status it had. */
  ghost predicate CulledView(v0: View, sid: Id, v: View) {
    && Culled(v0.entries, v0.res, v0.names, sid, v.entries, v.res, v.names)
    && (forall id :: id in v.entries ==> id in v0.statuses && id in v.statuses && v.statuses[id] == v0.statuses[id])
  }

  lemma CulledViewNone(v0: View, sid: Id)
    requires ConsistentEntries(v0.entries, v0.res) && forall id :: id in v0.entries ==> id in v0.statuses
    ensures CulledView(v0, sid, v0)
  {
    CulledNone(v0.entries, v0.res, sid, v0.names);
    hide Culled, ConsistentEntries;
  }

  lemma CulledViewStep(v0: View, sid: Id, v: View, v2: View, id: Id, o: Obj, ok: bool)
    requires CulledView(v0, sid, v) && Changes(v, v2, id, o, ok) && id in v.entries && v.entries[id].sandbox == sid
    requires id in v.statuses && (!ok ==> o.status == v.statuses[id])
    requires v2.names == if ok then v.names.ReleaseByKey(id) else v.names
    ensures CulledView(v0, sid, v2)
  {
    CulledFacts(v0.entries, v0.res, v0.names, sid, v.entries, v.res, v.names);
    assert forall x :: x in v2.res ==> x in v.res.Keys;
    assert !ok ==> Alike(v2, id, o);
    hide Culled;
    CulledStep(v0.entries, v0.res, v0.names, sid, v.entries, v.res, v.names, id, ok, v2.res);
  }

  lemma CulledConsistent(v0: View, sid: Id, v: View)
    requires CulledView(v0, sid, v)
    ensures ConsistentEntries(v.entries, v.res)
    ensures forall id :: id in v.entries ==> id in v0.statuses && id in v.statuses && v.statuses[id] == v0.statuses[id]
    ensures forall id :: id in v.entries ==> id in v0.entries && v.entries[id] == v0.entries[id]
  {
    CulledFacts(v0.entries, v0.res, v0.names, sid, v.entries, v.res, v.names);
  }

  /** Every entry is on the list, once and under its own id. */
  predicate Listing(list: seq<Container>, entries: map<Id, Container>) {
    && (forall i :: 0 <= i < |list| ==> list[i].id in entries && entries[list[i].id] == list[i])
    && (forall i, j :: 0 <= i < j < |list| ==> list[i].id != list[j].id)
    && (forall id :: id in entries ==> entries[id].id == id && entries[id] in list)
  }

  /** With `n` entries of the list done, those of the sandbox are gone and the rest of the list is still there. */
  predicate Progress(all: map<Id, Container>, list: seq<Container>, n: nat, sid: Id, entries: map<Id, Container>) {
    && (forall id :: id in entries ==> id in all && entries[id] == all[id])
    && (forall i :: 0 <= i < n && i < |list| && list[i].sandbox == sid ==> list[i].id !in entries)
    && (forall i :: n <= i < |list| ==> list[i].id in entries && entries[list[i].id] == list[i])
  }

  lemma ProgressStep(all: map<Id, Container>, list: seq<Container>, n: nat, sid: Id, entries: map<Id, Container>)
    requires Listing(list, all) && Progress(all, list, n, sid, entries) && n < |list|
    ensures list[n].id in entries && entries[list[n].id] == list[n]
    ensures list[n].sandbox != sid ==> Progress(all, list, n + 1, sid, entries)
    ensures Progress(all, list, n + 1, sid, entries - {list[n].id})
  {
  }

  lemma ProgressEnd(all: map<Id, Container>, list: seq<Container>, sid: Id, entries: map<Id, Container>)
    requires Listing(list, all) && Progress(all, list, |list|, sid, entries)
    ensures forall id :: id in entries ==> entries[id].sandbox != sid
  {
    forall id | id in entries
      ensures entries[id].sandbox != sid
    {
      var i :| 0 <= i < |list| && list[i] == all[id];
      assert list[i].id in all && all[list[i].id] == list[i];
    }
  }

  /** Where RemovePodSandbox stands after its first lookup, and what it answers if there is no such sandbox. */
  function FirstPosition(w: World, sid: Id): Call {
    if InSandboxStore(w, sid) then RemovingSb(sid, [], 0, RsGet) else Finished(Plain)
  }

  lemma BeginRemoval(w: World, t: Tid, sid: Id)
    requires t !in w.calls && !w.monitor.Panicked?
    ensures Next(w, Begin(t, RemovePodSandbox(sid))) == Some(Moved(w, t, FirstPosition(w, sid)))
  {
  }

  /** What the steps of the call lead to from there is a run that begins with the arrival of the call. */
  lemma RemovalIsRun(w: World, t: Tid, sid: Id, w2: World) returns (script: seq<Choice>)
    requires t !in w.calls && !w.monitor.Panicked? && Leads(Moved(w, t, FirstPosition(w, sid)), t, w2)
    ensures Run(w, [Begin(t, RemovePodSandbox(sid))] + Steps(t, script)) == Some(w2)
  {
    BeginRemoval(w, t, sid);
    hide Next;
    script :| Run(Moved(w, t, FirstPosition(w, sid)), Steps(t, script)) == Some(w2);
    var schedule := [Begin(t, RemovePodSandbox(sid))] + Steps(t, script);
    assert schedule[1..] == Steps(t, script);
  }

  lemma DepictsDropped(w: World, v: View, t: Tid, sid: Id, order: seq<Id>)
    requires Depicts(w, v) && sid in w.sbs
    ensures Depicts(Dropped(w, t, sid, order), v)
  {
    assert forall id :: InStore(Dropped(w, t, sid, order), id) <==> InStore(w, id);
  }
}
