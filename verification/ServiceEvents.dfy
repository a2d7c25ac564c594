/**
Every step keeps what the queued events say: an exit that matters is pending,
each exit is reported once, and the monitor acts only on the recorded exit.
*/
module ServiceEvents {
  import opened Wrappers
  import opened ContainerStatus
  import opened Service
  import opened ServiceInv
  import opened ServiceProof

  /** A step of a call neither makes, changes nor forgets an exit. */
  predicate ExitTame(o: Obj, o2: Obj) {
    && (o.initPid != 0 ==> o2.initPid == o.initPid && o2.exit == o.exit)
    && (o.initPid == 0 ==> o2.exit.None?)
    && (o2.exit.Some? && (o2.status.State() == RUNNING || o2.lock.Some?) ==>
          o.status.State() == RUNNING || o.lock.Some?)
    && o2.dropped == o.dropped
    && (o.status.State() == RUNNING ==> o2.status.State() == RUNNING && o2.status.pid == o.status.pid)
    && (Listed(o.place) ==> Listed(o2.place))
  }

  lemma StartExitTame(o: Obj, names: Index, t: Tid, id: Id, sb: Option<Sandbox>, pc: StartPc, c: Choice)
    requires ObjOk(o) && CallFits(o, t, Starting(id, pc)) && StartStep(o, names, t, id, sb, pc, c).Some?
    ensures ExitTame(o, StartStep(o, names, t, id, sb, pc, c).value.obj)
  {
  }

  lemma OtherExitTame(o: Obj, names: Index, t: Tid, id: Id, cpc: CreatePc, rpc: RemovePc, up: Up, c: Choice)
    requires ObjOk(o)
    ensures CallFits(o, t, Creating(id, cpc)) && CreateStep(o, names, id, cpc, c).Some? ==>
              ExitTame(o, CreateStep(o, names, id, cpc, c).value.obj)
    ensures CallFits(o, t, Removing(id, rpc, up)) && RemoveStep(o, names, t, id, rpc, up, c).Some? ==>
              ExitTame(o, RemoveStep(o, names, t, id, rpc, up, c).value.obj)
  {
  }

  lemma ContainerExitTame(w: World, t: Tid, call: Call, c: Choice)
    requires OnContainer(call) && call.id in w.objs && ContainerStep(w, t, call, c).Some?
    requires ObjOk(w.objs[call.id]) && CallFits(w.objs[call.id], t, call)
    ensures ExitTame(w.objs[call.id], ContainerStep(w, t, call, c).value.obj)
  {
    var o := w.objs[call.id];
    if call.Stopping? {
      assert LifeOk(o);
    }
    hide CallFits, ObjOk, CreateStep, StartStep, RemoveStep;
    match call
    case Creating(id, pc) => OtherExitTame(o, w.names, t, id, pc, Reset, Top, c);
    case Starting(id, pc) =>
      StartExitTame(o, w.names, t, id, if o.sandbox in w.sbs then Some(w.sbs[o.sandbox]) else None, pc, c);
    case Stopping(_, _, _, _) =>
    case Removing(id, pc, up) => OtherExitTame(o, w.names, t, id, Build, pc, up, c);
  }

  /** The queue and the monitor stay; containers change tamely or are new. */
  ghost predicate QuietStep(w: World, w2: World) {
    && w2.queue == w.queue && w2.monitor == w.monitor && w2.objs.Keys !! w2.sbs.Keys
    && (forall id :: id in w.objs ==> id in w2.objs && ExitTame(w.objs[id], w2.objs[id]))
    && (forall id :: id in w2.objs && id !in w.objs ==> w2.objs[id].exit.None? && !w2.objs[id].dropped)
    && (forall sid :: sid in w.sbs ==> sid in w2.sbs)
  }

  lemma SameExits(w: World, w2: World, ev: Event)
    requires QuietStep(w, w2) && EventOk(w, ev)
    ensures EventOk(w2, ev)
    ensures forall id :: IsExitOf(w2, id, ev) <==> IsExitOf(w, id, ev)
  {
  }

  lemma QuietEvents(w: World, w2: World)
    requires EventsOk(w) && OnceOk(w) && QuietStep(w, w2)
    ensures EventsOk(w2) && OnceOk(w2)
  {
    forall i | 0 <= i < |w.queue|
      ensures EventOk(w2, w.queue[i])
      ensures forall id :: IsExitOf(w2, id, w.queue[i]) <==> IsExitOf(w, id, w.queue[i])
    {
      SameExits(w, w2, w.queue[i]);
    }
    if Handling(w) {
      SameExits(w, w2, w.monitor.ev);
    }
    hide EventOk, IsExitOf;
    forall id
      ensures Pending(w2, id) <==> Pending(w, id)
    {
    }
    hide Pending;
  }

  // -------------------------------------------------------------- monitor

  lemma RecvEvents(w: World, c: Choice)
    requires ObjsOk(w) && EventsOk(w) && OnceOk(w) && w.monitor == Idle && w.queue != []
    ensures EventsOk(MonitorStep(w, c).value) && OnceOk(MonitorStep(w, c).value)
  {
    var w2 := MonitorStep(w, c).value;
    forall i | 0 <= i < |w2.queue|
      ensures w2.queue[i] == w.queue[i + 1] && EventOk(w2, w2.queue[i])
    {
      assert EventOk(w, w.queue[i + 1]);
    }
    assert EventOk(w, w.queue[0]);
    assert forall id, ev :: IsExitOf(w2, id, ev) <==> IsExitOf(w, id, ev);
    hide EventOk, IsExitOf, ObjOk;
    forall id
      ensures Pending(w2, id) <==> Pending(w, id)
    {
      if i :| 0 <= i < |w.queue| && IsExitOf(w, id, w.queue[i]) {
        if i > 0 {
          assert IsExitOf(w2, id, w2.queue[i - 1]);
        }
      }
    }
    hide Pending;
  }

  /** The exit of this container still has to reach its status. */
  predicate Owed(o: Obj) {
    (o.status.State() == RUNNING || o.lock.Some?) && o.exit.Some? && !o.dropped
  }

  /** Containers other than the one of the event in hand stay; that one keeps its exit. */
  ghost predicate OnlyHandled(w: World, w2: World) {
    && Handling(w) && w2.queue == w.queue && w2.sbs == w.sbs && w2.objs.Keys == w.objs.Keys
    && (forall x :: x in w.objs && x != w.monitor.ev.id ==> w2.objs[x] == w.objs[x])
    && (w.monitor.ev.id in w.objs ==>
          var o, o2 := w.objs[w.monitor.ev.id], w2.objs[w.monitor.ev.id];
          o2.initPid == o.initPid && o2.exit == o.exit && (Owed(o2) ==> Owed(o)))
  }

  lemma SameViews(w: World, w2: World)
    requires OnlyHandled(w, w2)
    ensures forall id, ev :: IsExitOf(w2, id, ev) <==> IsExitOf(w, id, ev)
    ensures forall ev :: EventOk(w2, ev) <==> EventOk(w, ev)
  {
  }

  /** The monitor goes on with its event. */
  lemma AdvanceEvents(w: World, w2: World)
    requires EventsOk(w) && OnceOk(w) && OnlyHandled(w, w2)
    requires Handling(w2) && w2.monitor.ev == w.monitor.ev && MonitorOk(w2)
    requires forall x :: x in w.objs ==> w2.objs[x].dropped == w.objs[x].dropped
    ensures EventsOk(w2) && OnceOk(w2)
  {
    SameViews(w, w2);
    hide EventOk, IsExitOf;
    assert forall id :: Pending(w2, id) <==> Pending(w, id);
    hide Pending;
    forall id | id in w2.objs
      ensures ExitOk(w2, id)
    {
      assert ExitOk(w, id);
    }
  }

  /** The monitor is done with its event: nothing is owed to that container any more. */
  lemma SettleEvents(w: World, w2: World)
    requires EventsOk(w) && OnceOk(w) && OnlyHandled(w, w2) && !Handling(w2)
    requires var id := w.monitor.ev.id; id in w.objs && IsExitOf(w, id, w.monitor.ev) ==> !Owed(w2.objs[id])
    requires var id := w.monitor.ev.id; id in w.objs && w2.objs[id].dropped ==>
               w.objs[id].dropped || IsExitOf(w, id, w.monitor.ev)
    ensures EventsOk(w2) && OnceOk(w2)
  {
    SameViews(w, w2);
    var ev := w.monitor.ev;
    assert forall id :: IsExitOf(w, id, ev) ==> id == ev.id;
    hide EventOk, IsExitOf;
    forall id
      ensures Pending(w2, id) ==> Pending(w, id) && !IsExitOf(w, id, ev)
      ensures Pending(w, id) && !IsExitOf(w, id, ev) ==> Pending(w2, id)
    {
    }
    hide Pending;
    forall id | id in w2.objs
      ensures ExitOk(w2, id)
    {
      assert ExitOk(w, id);
    }
  }

  lemma LookupEvents(w: World, c: Choice)
    requires ObjsOk(w) && EventsOk(w) && OnceOk(w) && w.monitor.Got?
    ensures EventsOk(MonitorStep(w, c).value) && OnceOk(MonitorStep(w, c).value)
  {
    var w2 := MonitorStep(w, c).value;
    var id := w.monitor.ev.id;
    if InStore(w, id) {
      SameViews(w, w2);
      hide ObjsOk, EventOk;
      AdvanceEvents(w, w2);
    } else {
      assert id in w.objs ==> ObjOk(w.objs[id]);
      hide ObjsOk, EventsOk, OnceOk;
      SettleEvents(w, w2);
    }
  }

  /** `ev` is the exit of the init process of `o`. */
  predicate ExitsFrom(o: Obj, ev: Event) {
    ev.ExitEvent? && ev.pid == o.initPid
  }

  predicate ActsOn(o: Obj, ev: Event) {
    ev.ExitEvent? && o.status.State() == RUNNING && o.status.pid == ev.pid && !o.dropped
  }

  /** What one step of handling `m.ev` may do to its container. */
  predicate HandledBy(o: Obj, m: Monitor, d: MonitorDelta)
    requires m.Found? || m.Matched? || m.Deleted?
  {
    && d.obj.initPid == o.initPid && d.obj.exit == o.exit && d.obj.place == o.place && (Owed(d.obj) ==> Owed(o))
    && (d.monitor == Idle || ((d.monitor.Matched? || d.monitor.Deleted?) && d.monitor.ev == m.ev))
    && (d.monitor == Idle && ExitsFrom(o, m.ev) ==> !Owed(d.obj))
    && (d.monitor == Idle && d.obj.dropped ==> o.dropped || ExitsFrom(o, m.ev))
    && (d.monitor != Idle ==> d.obj.dropped == o.dropped && ActsOn(d.obj, m.ev))
  }

  lemma HandleExit(o: Obj, m: Monitor, c: Choice)
    requires ObjOk(o) && (m.Found? || m.Matched? || m.Deleted?) && HandleStep(o, m, c).Some?
    requires m.ev.ExitEvent? ==> m.ev.pid != 0
    requires m.Found? && ExitsFrom(o, m.ev) ==> !o.dropped
    requires !m.Found? ==> ActsOn(o, m.ev) && HandlesExit(o, m.ev)
    ensures HandledBy(o, m, HandleStep(o, m, c).value)
  {
  }

  lemma HandleFacts(w: World)
    requires ObjsOk(w) && EventsOk(w) && OnceOk(w) && Handling(w) && !w.monitor.Got?
    ensures var m := w.monitor;
      && m.ev.id in w.objs && ObjOk(w.objs[m.ev.id])
      && (m.ev.ExitEvent? ==> m.ev.pid != 0)
      && (m.Found? && ExitsFrom(w.objs[m.ev.id], m.ev) ==> !w.objs[m.ev.id].dropped)
      && (!m.Found? ==> ActsOn(w.objs[m.ev.id], m.ev) && HandlesExit(w.objs[m.ev.id], m.ev))
  {
    var id := w.monitor.ev.id;
    assert ObjOk(w.objs[id]);
    if ExitsFrom(w.objs[id], w.monitor.ev) {
      assert Pending(w, id);
    }
  }

  lemma ApplyHandled(w: World, d: MonitorDelta)
    requires EventsOk(w) && OnceOk(w) && Handling(w) && !w.monitor.Got?
    requires w.monitor.ev.id in w.objs && HandledBy(w.objs[w.monitor.ev.id], w.monitor, d)
    ensures var w2 := ApplyMonitor(w, w.monitor.ev.id, d); EventsOk(w2) && OnceOk(w2)
  {
    var id := w.monitor.ev.id;
    var w2 := ApplyMonitor(w, id, d);
    assert EventOk(w, w.monitor.ev);
    hide EventsOk, OnceOk, Owed;
    SameViews(w, w2);
    hide EventOk;
    if d.monitor == Idle {
      SettleEvents(w, w2);
    } else {
      AdvanceEvents(w, w2);
    }
  }

  lemma HandleEvents(w: World, c: Choice)
    requires ObjsOk(w) && EventsOk(w) && OnceOk(w) && Handling(w) && !w.monitor.Got? && MonitorStep(w, c).Some?
    ensures EventsOk(MonitorStep(w, c).value) && OnceOk(MonitorStep(w, c).value)
  {
    HandleFacts(w);
    hide ObjsOk, EventsOk, OnceOk, HandleStep, ObjOk, HandledBy, HandlesExit, ActsOn;
    HandleExit(w.objs[w.monitor.ev.id], w.monitor, c);
    ApplyHandled(w, HandleStep(w.objs[w.monitor.ev.id], w.monitor, c).value);
  }

  // ------------------------------------------------------------ processes

  /** An event is appended that is nobody's exit. */
  lemma NoiseEvents(w: World, ev: Event)
    requires EventsOk(w) && OnceOk(w) && EventOk(w, ev) && (forall id :: !IsExitOf(w, id, ev))
    ensures var w2 := w.(queue := w.queue + [ev]); EventsOk(w2) && OnceOk(w2)
  {
    var w2 := w.(queue := w.queue + [ev]);
    assert forall id, e :: IsExitOf(w2, id, e) <==> IsExitOf(w, id, e);
    assert forall e :: EventOk(w2, e) <==> EventOk(w, e);
    hide EventOk, IsExitOf;
    forall id
      ensures Pending(w2, id) <==> Pending(w, id)
    {
      if i :| 0 <= i < |w.queue| && IsExitOf(w, id, w.queue[i]) {
        assert IsExitOf(w2, id, w2.queue[i]);
      }
    }
    hide Pending;
    forall id | id in w2.objs
      ensures ExitOk(w2, id)
    {
      assert ExitOk(w, id);
    }
  }

  /** An exit is published: `id`, so far without an exit, gets one. */
  ghost predicate Publishes(w: World, w2: World, id: Id, ev: Event) {
    && id in w.objs && w2.objs.Keys == w.objs.Keys && w2.sbs == w.sbs && w2.monitor == w.monitor
    && w2.queue == w.queue + [ev]
    && ev.ExitEvent? && ev.id == id && ev.pid == w.objs[id].initPid && ev.pid != 0 && ev.code < 0x1_0000_0000
    && (forall x :: x in w.objs && x != id ==> w2.objs[x] == w.objs[x])
    && w.objs[id].exit.None? && w2.objs[id] == ExitObj(w.objs[id], ev.code, ev.at)
  }

  lemma PublishedViews(w: World, w2: World, id: Id, ev: Event)
    requires Publishes(w, w2, id, ev)
    ensures forall x, e :: IsExitOf(w2, x, e) <==> IsExitOf(w, x, e)
    ensures forall e :: EventOk(w, e) ==> !IsExitOf(w, id, e) && EventOk(w2, e)
    ensures EventOk(w2, ev) && (forall x :: IsExitOf(w2, x, ev) <==> x == id)
  {
  }

  lemma ExitEvents(w: World, w2: World, id: Id, ev: Event)
    requires EventsOk(w) && OnceOk(w) && Publishes(w, w2, id, ev) && !w.objs[id].dropped
    ensures EventsOk(w2) && OnceOk(w2)
  {
    PublishedViews(w, w2, id, ev);
    assert w2.queue[|w.queue|] == ev;
    hide EventOk, IsExitOf;
    forall x
      ensures Pending(w2, x) <==> Pending(w, x) || x == id
    {
      if i :| 0 <= i < |w.queue| && IsExitOf(w, x, w.queue[i]) {
        assert IsExitOf(w2, x, w2.queue[i]);
      }
    }
    hide Pending;
    forall x | x in w2.objs
      ensures ExitOk(w2, x)
    {
      assert ExitOk(w, x);
    }
  }

  // ------------------------------------------------------------ all steps

  lemma ExitTameSame(w: World)
    requires ObjsOk(w)
    ensures forall id :: id in w.objs ==> ExitTame(w.objs[id], w.objs[id])
  {
    hide RemovalOk, OwnersOk;
  }

  lemma GoQuiet(w: World, t: Tid, c: Choice)
    requires ObjsOk(w) && CallsOk(w) && CallStep(w, t, c).Some? && ObjsOk(CallStep(w, t, c).value)
    ensures QuietStep(w, CallStep(w, t, c).value)
  {
    var call := w.calls[t];
    ExitTameSame(w);
    if OnContainer(call) {
      assert ObjOk(w.objs[call.id]) && CallOk(w, t, call);
      ContainerExitTame(w, t, call, c);
      hide CallsOk, ContainerStep, ObjOk, OwnersOk, CallFits, ExitTame, QuietStep;
      ContainerQuiet(w, t, call.id, ContainerStep(w, t, call, c).value);
    } else {
      hide CallsOk, SandboxStep, ObjOk, OwnersOk, ExitTame, QuietStep;
      SandboxQuiet(w, t, call.sid, SandboxStep(w, t, call, c).value);
    }
  }

  lemma ContainerQuiet(w: World, t: Tid, id: Id, d: Delta)
    requires w.objs.Keys !! w.sbs.Keys && id in w.objs && ExitTame(w.objs[id], d.obj)
    requires forall x :: x in w.objs ==> ExitTame(w.objs[x], w.objs[x])
    ensures QuietStep(w, Apply(w, t, id, d))
  {
    hide ExitTame;
    assert Apply(w, t, id, d).objs.Keys == w.objs.Keys;
  }

  lemma SandboxQuiet(w: World, t: Tid, sid: Id, d: DeltaSb)
    requires w.objs.Keys !! w.sbs.Keys && sid in w.sbs
    requires forall x :: x in w.objs ==> ExitTame(w.objs[x], w.objs[x])
    ensures QuietStep(w, ApplySb(w, t, sid, d))
  {
    hide ExitTame;
    assert ApplySb(w, t, sid, d).sbs.Keys == w.sbs.Keys;
  }

  lemma BeginQuiet(w: World, t: Tid, req: Request)
    requires ObjsOk(w) && BeginStep(w, t, req).Some? && ObjsOk(BeginStep(w, t, req).value)
    ensures QuietStep(w, BeginStep(w, t, req).value)
  {
    ExitTameSame(w);
    hide OwnersOk, ObjOk, ExitTame, FirstCall;
  }

  lemma TaskExitEvents(w: World, a: Action)
    requires ObjsOk(w) && EventsOk(w) && OnceOk(w) && a.TaskExits? && EnvStep(w, a).Some?
    ensures EventsOk(EnvStep(w, a).value) && OnceOk(EnvStep(w, a).value)
  {
    assert LifeOk(w.objs[a.id]);
    hide ObjsOk, EventsOk, OnceOk;
    ExitEvents(w, EnvStep(w, a).value, a.id, ExitEvent(a.id, w.objs[a.id].initPid, a.code, a.at));
  }

  lemma SandboxExitEvents(w: World, w2: World)
    requires ObjsOk(w) && EventsOk(w) && OnceOk(w)
    requires w2.objs == w.objs && w2.sbs.Keys == w.sbs.Keys && w2.queue == w.queue && w2.monitor == w.monitor
    ensures EventsOk(w2) && OnceOk(w2)
  {
    ExitTameSame(w);
    hide EventsOk, OnceOk, ObjOk, OwnersOk, ExitTame;
    QuietEvents(w, w2);
  }

  lemma EnvEvents(w: World, a: Action)
    requires ObjsOk(w) && EventsOk(w) && OnceOk(w) && (a.TaskExits? || a.OtherExits? || a.Oom? || a.SandboxExits?)
    requires EnvStep(w, a).Some?
    ensures EventsOk(EnvStep(w, a).value) && OnceOk(EnvStep(w, a).value)
  {
    var w2 := EnvStep(w, a).value;
    hide ObjsOk, EventsOk, OnceOk;
    match a
    case TaskExits(_, _, _) => TaskExitEvents(w, a);
    case OtherExits(id, pid, code, at) => NoiseEvents(w, ExitEvent(id, pid, code, at));
    case Oom(id) => NoiseEvents(w, OomEvent(id));
    case SandboxExits(_) =>
      SandboxExitEvents(w, w2);
  }

  lemma MonitorEvents(w: World, c: Choice)
    requires ObjsOk(w) && EventsOk(w) && OnceOk(w) && MonitorStep(w, c).Some?
    ensures EventsOk(MonitorStep(w, c).value) && OnceOk(MonitorStep(w, c).value)
  {
    hide ObjsOk, OnceOk, EventsOk;
    if w.monitor == Idle {
      RecvEvents(w, c);
    } else if w.monitor.Got? {
      LookupEvents(w, c);
    } else {
      HandleEvents(w, c);
    }
  }

  /** Every step keeps the events right. */
  lemma EventsKept(w: World, a: Action)
    requires ObjsOk(w) && CallsOk(w) && EventsOk(w) && OnceOk(w) && Next(w, a).Some?
    ensures EventsOk(Next(w, a).value) && OnceOk(Next(w, a).value)
  {
    hide ObjsOk, CallsOk, EventsOk, OnceOk, QuietStep, BeginStep, CallStep, MonitorStep, EnvStep;
    CoreKept(w, a);
    match a
    case Begin(t, req) =>
      BeginQuiet(w, t, req);
      QuietEvents(w, Next(w, a).value);
    case Go(t, c) =>
      GoQuiet(w, t, c);
      QuietEvents(w, Next(w, a).value);
    case MonitorGo(c) => MonitorEvents(w, c);
    case TaskExits(_, _, _) => EnvEvents(w, a);
    case OtherExits(_, _, _, _) => EnvEvents(w, a);
    case Oom(_) => EnvEvents(w, a);
    case SandboxExits(_) => EnvEvents(w, a);
  }
}
