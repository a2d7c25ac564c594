/**
When a call fails: exactly if some step of it meets one of the listed causes,
whatever the other calls, the monitor and the processes do in between.
*/
module CallFailures {
  import opened Wrappers
  import opened ContainerStatus
  import opened Registrar
  import opened Service
  import opened CallHistory
  import opened ServiceSafety
  import opened SandboxSafety

  /** The call has failed, or only cleans up before it fails. */
  predicate Doomed(c: Call) {
    match c
    case Creating(_, pc) => pc.Undo? || pc == ReleaseName
    case Starting(_, pc) => pc == CleanupTask || pc == CommitFailure
    case Removing(_, pc, _) => pc == Reset
    case RunningSb(_, pc) => pc == RunUndoTask || pc == RunRelease
    case Finished(out) => out == Failed
    case _ => false
  }

  /** The name and the id cannot be paired: one is empty, or one is already paired otherwise. */
  predicate Unpairable(names: Index, name: string, id: Id) {
    || name == "" || id == ""
    || (name in names.nameToKey && names.nameToKey[name] != id)
    || (id in names.keyToName && names.keyToName[id] != name)
  }

  predicate CreateCause(w: World, o: Obj, id: Id, pc: CreatePc, reply: Reply) {
    match pc
    case ReserveName => Unpairable(w.names, o.name, id)
    case Acquire(_) => reply != Success
    case AddToStore => o.place == Stored
    case _ => false
  }

  predicate StartCause(w: World, o: Obj, pc: StartPc, reply: Reply) {
    match pc
    case Guard => o.status.State() != CREATED || o.status.removing
    case SandboxGet => !InSandboxStore(w, o.sandbox)
    case SandboxTask => reply == Error || o.sandbox !in w.sbs || w.sbs[o.sandbox].task != Running
    case Pipes => reply != Success
    case Loggers => reply != Success
    case Mounts => reply != Success
    case TaskCreate => reply != Success
    case TaskStart => reply != Success
    case _ => false
  }

  /**
  A stop fails on an image that is not found, on a signal that cannot be sent,
  and when the second wait ends first; a first wait that times out is no failure.
  */
  predicate StopCause(o: Obj, pc: StopPc, reply: Reply) {
    match pc
    case Image => reply != Success
    case Term => reply == Error
    case Kill => reply == Error
    case WaitRead(first) => !first && o.status.State() != EXITED && reply != Success
    case _ => false
  }

  predicate RemoveCause(o: Obj, pc: RemovePc, reply: Reply) {
    match pc
    case SetRemovingPc => o.status.State() == RUNNING || o.status.removing
    case Snapshot => reply == Error
    case RootDir => reply != Success
    case Ctr => reply == Error
    case _ => false
  }

  predicate RunCause(w: World, sb: Sandbox, sid: Id, pc: RunPc, reply: Reply) {
    match pc
    case RunReserve => Unpairable(w.sbNames, sb.name, sid)
    case RunTask => reply != Success
    case RunRest => reply != Success
    case RunAdd => sb.place == Stored
    case _ => false
  }

  predicate StopSbCause(pc: StopSbPc, reply: Reply) {
    match pc
    case SbSubscribe => reply != Success
    case SbWait => reply != Success
    case SbList => false
    case SbLoop => false
    case _ => reply == Error
  }

  predicate RemoveSbCause(pc: RemoveSbPc, reply: Reply) {
    match pc
    case RsGet => reply != NotFound
    case RsSnapshot => reply == Error
    case RsRootDir => reply != Success
    case RsCtr => reply == Error
    case _ => false
  }

  /** Call `t` stands in `w` where the reply, or what it finds, makes it fail. */
  predicate Cause(w: World, t: Tid, reply: Reply) {
    t in w.calls &&
    match w.calls[t]
    case Creating(id, pc) => id in w.objs && CreateCause(w, w.objs[id], id, pc, reply)
    case Starting(id, pc) => id in w.objs && StartCause(w, w.objs[id], pc, reply)
    case Stopping(id, _, pc, _) => id in w.objs && StopCause(w.objs[id], pc, reply)
    case Removing(id, pc, _) => id in w.objs && RemoveCause(w.objs[id], pc, reply)
    case RunningSb(sid, pc) => sid in w.sbs && RunCause(w, w.sbs[sid], sid, pc, reply)
    case StoppingSb(_, _, _, _, pc) => StopSbCause(pc, reply)
    case RemovingSb(_, _, _, pc) => RemoveSbCause(pc, reply)
    case Finished(_) => false
  }

  // -------------------------------------------------------- one step of a call

  lemma CreateFails(w: World, o: Obj, id: Id, pc: CreatePc, c: Choice)
    requires CreateStep(o, w.names, id, pc, c).Some? && w.names.Inverse()
    ensures var call := CreateStep(o, w.names, id, pc, c).value.call;
      Doomed(call) <==> Doomed(Creating(id, pc)) || CreateCause(w, o, id, pc, c.reply)
  {
  }

  lemma StartFails(w: World, o: Obj, t: Tid, id: Id, pc: StartPc, c: Choice)
    requires var sb := if o.sandbox in w.sbs then Some(w.sbs[o.sandbox]) else None;
      StartStep(o, w.names, t, id, sb, pc, c).Some?
    ensures var sb := if o.sandbox in w.sbs then Some(w.sbs[o.sandbox]) else None;
      var call := StartStep(o, w.names, t, id, sb, pc, c).value.call;
      Doomed(call) <==> Doomed(Starting(id, pc)) || StartCause(w, o, pc, c.reply)
  {
  }

  lemma StopFails(o: Obj, id: Id, graceful: bool, pc: StopPc, up: Up, c: Choice)
    requires StopStep(o, id, graceful, pc, up, c).Some?
    ensures Doomed(StopStep(o, id, graceful, pc, up, c).value) <==> StopCause(o, pc, c.reply)
  {
  }

  lemma RemoveFails(o: Obj, names: Index, t: Tid, id: Id, pc: RemovePc, up: Up, c: Choice)
    requires RemoveStep(o, names, t, id, pc, up, c).Some?
    ensures var call := RemoveStep(o, names, t, id, pc, up, c).value.call;
      Doomed(call) <==> Doomed(Removing(id, pc, up)) || RemoveCause(o, pc, c.reply)
  {
  }

  lemma RunFails(w: World, sb: Sandbox, sid: Id, pc: RunPc, c: Choice)
    requires RunStep(sb, w.sbNames, sid, pc, c).Some? && w.sbNames.Inverse()
    ensures var call := RunStep(sb, w.sbNames, sid, pc, c).value.call;
      Doomed(call) <==> Doomed(RunningSb(sid, pc)) || RunCause(w, sb, sid, pc, c.reply)
  {
  }

  lemma StopSbFails(w: World, sb: Sandbox, sid: Id, listed: seq<Id>, next: nat, seen: Seen, pc: StopSbPc, c: Choice)
    requires StopSbStep(w, sb, sid, listed, next, seen, pc, c).Some?
    ensures Doomed(StopSbStep(w, sb, sid, listed, next, seen, pc, c).value.call) <==> StopSbCause(pc, c.reply)
  {
    hide Lists;
  }

  lemma RemoveSbFails(w: World, sb: Sandbox, t: Tid, sid: Id, listed: seq<Id>, next: nat, pc: RemoveSbPc, c: Choice)
    requires RemoveSbStep(w, sb, t, sid, listed, next, pc, c).Some?
    ensures Doomed(RemoveSbStep(w, sb, t, sid, listed, next, pc, c).value.call) <==> RemoveSbCause(pc, c.reply)
  {
    hide Lists;
  }

  lemma GoFails(w: World, t: Tid, c: Choice)
    requires t in w.calls && Next(w, Go(t, c)).Some? && w.names.Inverse() && w.sbNames.Inverse()
    ensures t in Next(w, Go(t, c)).value.calls
    ensures Doomed(Next(w, Go(t, c)).value.calls[t]) <==> Doomed(w.calls[t]) || Cause(w, t, c.reply)
  {
    GoCall(w, t, c);
    hide Next, CreateStep, StartStep, StopStep, RemoveStep, RunStep, StopSbStep, RemoveSbStep;
    hide CreateCause, StartCause, StopCause, RemoveCause, RunCause, StopSbCause, RemoveSbCause;
    match w.calls[t]
    case Creating(id, pc) => CreateFails(w, w.objs[id], id, pc, c);
    case Starting(id, pc) => StartFails(w, w.objs[id], t, id, pc, c);
    case Stopping(id, graceful, pc, up) => StopFails(w.objs[id], id, graceful, pc, up, c);
    case Removing(id, pc, up) => RemoveFails(w.objs[id], w.names, t, id, pc, up, c);
    case RunningSb(sid, pc) => RunFails(w, w.sbs[sid], sid, pc, c);
    case StoppingSb(sid, listed, next, seen, pc) => StopSbFails(w, w.sbs[sid], sid, listed, next, seen, pc, c);
    case RemovingSb(sid, listed, next, pc) => RemoveSbFails(w, w.sbs[sid], t, sid, listed, next, pc, c);
  }

  // ------------------------------------------------------------------- runs

  /** Step `k` of the run is a step of call `t` that meets a cause. */
  ghost predicate CausesAt(w: World, schedule: seq<Action>, t: Tid, k: nat) {
    && k < |schedule| && schedule[k].Go? && schedule[k].t == t
    && Run(w, schedule[..k]).Some? && Cause(Run(w, schedule[..k]).value, t, schedule[k].c.reply)
  }

  lemma CausesLater(w: World, schedule: seq<Action>, t: Tid, k: nat)
    requires schedule != [] && Next(w, schedule[0]).Some?
    ensures CausesAt(w, schedule, t, k + 1) <==> CausesAt(Next(w, schedule[0]).value, schedule[1..], t, k)
  {
    hide Next, Cause;
    if k + 1 < |schedule| {
      assert schedule[..k + 1][1..] == schedule[1..][..k];
    }
  }

  lemma StepFails(w: World, a: Action, t: Tid)
    requires Reachable(w) && t in w.calls && Next(w, a).Some?
    ensures t in Next(w, a).value.calls
    ensures var causes := a.Go? && a.t == t && Cause(w, t, a.c.reply);
      Doomed(Next(w, a).value.calls[t]) <==> Doomed(w.calls[t]) || causes
  {
    hide Next, Doomed, Cause, Reachable;
    if a.Go? && a.t == t {
      NamesAgree(w);
      GoFails(w, t, a.c);
    } else {
      OthersKeepCall(w, a, t);
    }
  }

  /** Along every run, a call is bound to fail exactly if it was before or some step of it meets a cause. */
  lemma {:induction false} DoomedExactly(w: World, schedule: seq<Action>, t: Tid)
    requires Reachable(w) && t in w.calls && Run(w, schedule).Some?
    ensures t in Run(w, schedule).value.calls
    ensures var doomed := exists k :: CausesAt(w, schedule, t, k);
      Doomed(Run(w, schedule).value.calls[t]) <==> Doomed(w.calls[t]) || doomed
    decreases |schedule|
  {
    hide Next, Doomed, Cause, Reachable;
    if schedule != [] {
      var a := schedule[0];
      var w1 := Next(w, a).value;
      StepFails(w, a, t);
      Extend(w, a);
      DoomedExactly(w1, schedule[1..], t);
      assert CausesAt(w, schedule, t, 0) <==> a.Go? && a.t == t && Cause(w, t, a.c.reply) by {
        assert Run(w, schedule[..0]) == Some(w);
      }
      FirstOrLater(w, schedule, t);
    }
  }

  lemma FirstOrLater(w: World, schedule: seq<Action>, t: Tid)
    requires schedule != [] && Next(w, schedule[0]).Some?
    ensures (exists k :: CausesAt(w, schedule, t, k)) <==>
      CausesAt(w, schedule, t, 0) || exists k :: CausesAt(Next(w, schedule[0]).value, schedule[1..], t, k)
  {
    var w1 := Next(w, schedule[0]).value;
    hide Next, CausesAt;
    if k: nat :| CausesAt(w, schedule, t, k) && k != 0 {
      CausesLater(w, schedule, t, k - 1);
    }
    if k: nat :| CausesAt(w1, schedule[1..], t, k) {
      CausesLater(w, schedule, t, k);
    }
  }

  /** The first lookup of a call fails it: its container or sandbox is unknown. A removal has nothing to do then. */
  ghost predicate Unknown(w: World, req: Request) {
    match req
    case CreateContainer(_, sandbox, _) => sandbox !in SandboxStore(w)
    case StartContainer(id) => id !in Store(w)
    case StopContainer(id, _) => id !in Store(w)
    case StopPodSandbox(sid) => sid !in SandboxStore(w)
    case _ => false
  }

  /**
  From the arrival of a call to its return, under any interleaving: it returns an
  error if and only if its first lookup fails or some step of it meets a cause.
  */
  lemma FailsExactly(w: World, t: Tid, req: Request, schedule: seq<Action>)
    requires Reachable(w) && Next(w, Begin(t, req)).Some? && Run(Next(w, Begin(t, req)).value, schedule).Some?
    requires var w2 := Run(Next(w, Begin(t, req)).value, schedule).value; t in w2.calls ==> w2.calls[t].Finished?
    ensures var w1 := Next(w, Begin(t, req)).value; var w2 := Run(w1, schedule).value;
      && t in w2.calls
      && (w2.calls[t].out == Failed <==> Unknown(w, req) || exists k :: CausesAt(w1, schedule, t, k))
  {
    var w1 := Next(w, Begin(t, req)).value;
    BeginFails(w, t, req);
    hide Next, Run, CausesAt, Reachable, Unknown;
    Extend(w, Begin(t, req));
    DoomedExactly(w1, schedule, t);
  }

  lemma BeginFails(w: World, t: Tid, req: Request)
    requires Next(w, Begin(t, req)).Some?
    ensures t in Next(w, Begin(t, req)).value.calls
    ensures Doomed(Next(w, Begin(t, req)).value.calls[t]) <==> Unknown(w, req)
  {
  }
}
