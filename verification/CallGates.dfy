/**
What a call cannot have skipped: results that lead from where a call stands
back to a step of the run in which it made a certain foreign call, and to the
reply that it got.
*/
module CallGates {
  import opened Wrappers
  import opened ContainerStatus
  import opened Service
  import opened CallHistory

  /** Foreign calls that a call has to make before it can get any further. */
  datatype Gate =
    | ForcedKill(id: Id, up: Up)          // stopContainer without a grace period: kill
    | ImageGate(id: Id, up: Up)           // with one: look the image up for its stop signal
    | Signal(id: Id, up: Up)              // and send that
    | Timeout(id: Id, up: Up)             // and a first wait that has timed out
    | LateKill(id: Id, up: Up)            // and then kill
    | AcquireGate(id: Id, k: nat)         // CreateContainer: the k-th resource
    | TaskGate(sid: Id)                   // RunPodSandbox: the sandbox task
    | RestGate(sid: Id)                   // and everything after it
    | NetworkGate(sid: Id)                // StopPodSandbox: tear the network down
    | UnmountGate(sid: Id)
    | SubscribeGate(sid: Id)
    | KillGate(sid: Id)                   // and for a sandbox task that runs: kill
    | WaitGate(sid: Id)
    | DeleteGate(sid: Id)
    | OnlyDelete(sid: Id)                 // and for one that has stopped: delete it

  predicate GracefulStop(c: Call, id: Id, up: Up) {
    c.Stopping? && c.id == id && c.graceful && c.up == up
  }

  /** In the loop over the containers, or inside a stopContainer that it has called. */
  predicate InStopLoop(c: Call, sid: Id) {
    || (c.StoppingSb? && c.sid == sid && (c.opc == SbList || c.opc == SbLoop))
    || (c.Stopping? && c.up.StopLoop? && c.up.sid == sid)
  }

  predicate StopsAt(c: Call, sid: Id, pcs: set<StopSbPc>) {
    c.StoppingSb? && c.sid == sid && c.opc in pcs
  }

  /** The call has not passed the gate, or has failed. */
  predicate Before(g: Gate, c: Call) {
    c == Finished(Failed) ||
    match g
    case ForcedKill(id, up) => c == Stopping(id, false, Kill, up)
    case ImageGate(id, up) => c == Stopping(id, true, Image, up)
    case Signal(id, up) => GracefulStop(c, id, up) && (c.tpc == Image || c.tpc == Term)
    case Timeout(id, up) =>
      !(GracefulStop(c, id, up) && (c.tpc == Kill || c.tpc == WaitLookup(false) || c.tpc == WaitRead(false)))
    case LateKill(id, up) => !(GracefulStop(c, id, up) && (c.tpc == WaitLookup(false) || c.tpc == WaitRead(false)))
    case AcquireGate(id, k) =>
      && c.Creating? && c.id == id && k <= 2
      && (c.cpc == ReserveName || (c.cpc.Acquire? && c.cpc.k <= k) || c.cpc.Undo? || c.cpc == ReleaseName)
    case TaskGate(sid) =>
      c.RunningSb? && c.sid == sid && (c.npc == RunReserve || c.npc == RunTask || c.npc == RunRelease)
    case RestGate(sid) => c.RunningSb? && c.sid == sid && c.npc != RunAdd
    case NetworkGate(sid) => InStopLoop(c, sid) || StopsAt(c, sid, {SbNetwork})
    case UnmountGate(sid) => InStopLoop(c, sid) || StopsAt(c, sid, {SbNetwork, SbUnmount})
    case SubscribeGate(sid) => InStopLoop(c, sid) || StopsAt(c, sid, {SbNetwork, SbUnmount, SbSubscribe})
    case KillGate(sid) => StopsAt(c, sid, {SbKill})
    case WaitGate(sid) => StopsAt(c, sid, {SbKill, SbWait})
    case DeleteGate(sid) => StopsAt(c, sid, {SbKill, SbWait, SbDelete})
    case OnlyDelete(sid) => StopsAt(c, sid, {SbDelete})
  }

  /** The step that passes the gate: where the call stands, and the reply it gets. */
  predicate Passes(g: Gate, c: Call, reply: Reply) {
    match g
    case ForcedKill(id, up) => c == Stopping(id, false, Kill, up) && reply != Error
    case ImageGate(id, up) => c == Stopping(id, true, Image, up) && reply == Success
    case Signal(id, up) => c == Stopping(id, true, Term, up) && reply != Error
    case Timeout(id, up) => c == Stopping(id, true, WaitRead(true), up) && reply != Success
    case LateKill(id, up) => c == Stopping(id, true, Kill, up) && reply != Error
    case AcquireGate(id, k) => c == Creating(id, Acquire(k)) && reply == Success
    case TaskGate(sid) => c == RunningSb(sid, RunTask) && reply == Success
    case RestGate(sid) => c == RunningSb(sid, RunRest) && reply == Success
    case NetworkGate(sid) => StopsAt(c, sid, {SbNetwork}) && reply != Error
    case UnmountGate(sid) => StopsAt(c, sid, {SbUnmount}) && reply != Error
    case SubscribeGate(sid) => StopsAt(c, sid, {SbSubscribe}) && reply == Success
    case KillGate(sid) => StopsAt(c, sid, {SbKill}) && reply != Error
    case WaitGate(sid) => StopsAt(c, sid, {SbWait}) && reply == Success
    case DeleteGate(sid) => StopsAt(c, sid, {SbDelete}) && reply != Error
    case OnlyDelete(sid) => StopsAt(c, sid, {SbDelete}) && reply != Error
  }

  // -------------------------------------------------------- one step of a call

  lemma StopGate(o: Obj, id: Id, graceful: bool, pc: StopPc, up: Up, c: Choice, g: Gate)
    requires Before(g, Stopping(id, graceful, pc, up)) && StopStep(o, id, graceful, pc, up, c).Some?
    ensures Before(g, StopStep(o, id, graceful, pc, up, c).value) || Passes(g, Stopping(id, graceful, pc, up), c.reply)
  {
  }

  lemma CreateGate(o: Obj, names: Index, id: Id, pc: CreatePc, c: Choice, g: Gate)
    requires Before(g, Creating(id, pc)) && CreateStep(o, names, id, pc, c).Some?
    ensures Before(g, CreateStep(o, names, id, pc, c).value.call) || Passes(g, Creating(id, pc), c.reply)
  {
  }

  lemma StartGate(o: Obj, names: Index, t: Tid, id: Id, sb: Option<Sandbox>, pc: StartPc, c: Choice, g: Gate)
    requires Before(g, Starting(id, pc)) && StartStep(o, names, t, id, sb, pc, c).Some?
    ensures Before(g, StartStep(o, names, t, id, sb, pc, c).value.call)
  {
  }

  lemma RemoveGate(o: Obj, names: Index, t: Tid, id: Id, pc: RemovePc, up: Up, c: Choice, g: Gate)
    requires Before(g, Removing(id, pc, up)) && RemoveStep(o, names, t, id, pc, up, c).Some?
    ensures Before(g, RemoveStep(o, names, t, id, pc, up, c).value.call)
  {
  }

  lemma RunGate(sb: Sandbox, names: Index, sid: Id, pc: RunPc, c: Choice, g: Gate)
    requires Before(g, RunningSb(sid, pc)) && RunStep(sb, names, sid, pc, c).Some?
    ensures Before(g, RunStep(sb, names, sid, pc, c).value.call) || Passes(g, RunningSb(sid, pc), c.reply)
  {
  }

  lemma StopSbGate(w: World, sb: Sandbox, sid: Id, listed: seq<Id>, next: nat, seen: Seen, pc: StopSbPc, c: Choice,
                   g: Gate)
    requires var call := StoppingSb(sid, listed, next, seen, pc); Before(g, call)
    requires StopSbStep(w, sb, sid, listed, next, seen, pc, c).Some?
    ensures Before(g, StopSbStep(w, sb, sid, listed, next, seen, pc, c).value.call)
      || Passes(g, StoppingSb(sid, listed, next, seen, pc), c.reply)
  {
    hide Lists;
  }

  lemma RemoveSbGate(w: World, sb: Sandbox, t: Tid, sid: Id, listed: seq<Id>, next: nat, pc: RemoveSbPc, c: Choice,
                     g: Gate)
    requires Before(g, RemovingSb(sid, listed, next, pc))
    requires RemoveSbStep(w, sb, t, sid, listed, next, pc, c).Some?
    ensures Before(g, RemoveSbStep(w, sb, t, sid, listed, next, pc, c).value.call)
  {
    hide Lists;
  }

  lemma GoGate(w: World, t: Tid, c: Choice, g: Gate)
    requires t in w.calls && Before(g, w.calls[t]) && Next(w, Go(t, c)).Some?
    ensures t in Next(w, Go(t, c)).value.calls
    ensures Before(g, Next(w, Go(t, c)).value.calls[t]) || Passes(g, w.calls[t], c.reply)
  {
    GoCall(w, t, c);
    hide Next, CreateStep, StartStep, StopStep, RemoveStep, RunStep, StopSbStep, RemoveSbStep, Before, Passes;
    match w.calls[t]
    case Creating(id, pc) => CreateGate(w.objs[id], w.names, id, pc, c, g);
    case Starting(id, pc) =>
      var o := w.objs[id];
      StartGate(o, w.names, t, id, if o.sandbox in w.sbs then Some(w.sbs[o.sandbox]) else None, pc, c, g);
    case Stopping(id, graceful, pc, up) => StopGate(w.objs[id], id, graceful, pc, up, c, g);
    case Removing(id, pc, up) => RemoveGate(w.objs[id], w.names, t, id, pc, up, c, g);
    case RunningSb(sid, pc) => RunGate(w.sbs[sid], w.sbNames, sid, pc, c, g);
    case StoppingSb(sid, listed, next, seen, pc) => StopSbGate(w, w.sbs[sid], sid, listed, next, seen, pc, c, g);
    case RemovingSb(sid, listed, next, pc) => RemoveSbGate(w, w.sbs[sid], t, sid, listed, next, pc, c, g);
  }

  // ------------------------------------------------------------------- runs

  /** Step `k` of the run is a step of call `t` that passes the gate. */
  ghost predicate PassesAt(w: World, schedule: seq<Action>, t: Tid, g: Gate, k: nat) {
    && k < |schedule| && schedule[k].Go? && schedule[k].t == t
    && Run(w, schedule[..k]).Some?
    && var v := Run(w, schedule[..k]).value; t in v.calls && Passes(g, v.calls[t], schedule[k].c.reply)
  }

  /** A call that was before the gate and no longer is has passed it. */
  lemma {:induction false} FindPassage(w: World, schedule: seq<Action>, t: Tid, g: Gate) returns (k: nat)
    requires t in w.calls && Before(g, w.calls[t]) && Run(w, schedule).Some?
    requires var w2 := Run(w, schedule).value; t in w2.calls && !Before(g, w2.calls[t])
    ensures PassesAt(w, schedule, t, g, k)
    decreases |schedule|
  {
    hide Next, Before, Passes;
    var a := schedule[0];
    if a.Go? && a.t == t && Passes(g, w.calls[t], a.c.reply) {
      k := 0;
      assert Run(w, schedule[..0]) == Some(w);
    } else {
      if a.Go? && a.t == t {
        GoGate(w, t, a.c, g);
      } else {
        OthersKeepCall(w, a, t);
      }
      var rest := FindPassage(Next(w, a).value, schedule[1..], t, g);
      k := rest + 1;
      assert schedule[..k][1..] == schedule[1..][..rest];
    }
  }

  // ------------------------------------------------------------- stopping

  /** Call `t`, in stopContainer on `id`, reads the status RUNNING and goes on, by `schedule`, to `w2`. */
  ghost predicate ReadsRunning(w: World, t: Tid, id: Id, graceful: bool, up: Up, c: Choice,
                               schedule: seq<Action>, w2: World) {
    && t in w.calls && w.calls[t] == Stopping(id, graceful, ReadState, up)
    && id in w.objs && w.objs[id].status.State() == RUNNING
    && Next(w, Go(t, c)).Some? && Run(Next(w, Go(t, c)).value, schedule) == Some(w2)
  }

  lemma AfterReading(w: World, t: Tid, id: Id, graceful: bool, up: Up, c: Choice, schedule: seq<Action>, w2: World)
    requires ReadsRunning(w, t, id, graceful, up, c, schedule, w2)
    ensures var w1 := Next(w, Go(t, c)).value;
      t in w1.calls && w1.calls[t] == Stopping(id, graceful, if graceful then Image else Kill, up)
    ensures t in w2.calls
  {
    GoCall(w, t, c);
    hide Next;
    StaysCall(Next(w, Go(t, c)).value, schedule, t);
  }

  lemma {:induction false} StaysCall(w: World, schedule: seq<Action>, t: Tid)
    requires t in w.calls && Run(w, schedule).Some?
    ensures t in Run(w, schedule).value.calls
    decreases |schedule|
  {
    hide Next;
    if schedule != [] {
      var a := schedule[0];
      if a.Go? && a.t == t {
        GoCall(w, t, a.c);
      } else {
        OthersKeepCall(w, a, t);
      }
      StaysCall(Next(w, a).value, schedule[1..], t);
    }
  }

  /**
  A stop without a grace period kills.  Having read RUNNING, the call fails,
  or still stands before the kill, or has killed the container, at step `k`,
  with a reply other than an error; so it does in every wait and when it returns nil.
  */
  lemma ForcedStopKills(w: World, t: Tid, id: Id, up: Up, c: Choice, schedule: seq<Action>, w2: World) returns (k: nat)
    requires ReadsRunning(w, t, id, false, up, c, schedule, w2)
    requires t in w2.calls ==> w2.calls[t] != Finished(Failed) && w2.calls[t] != Stopping(id, false, Kill, up)
    ensures PassesAt(Next(w, Go(t, c)).value, schedule, t, ForcedKill(id, up), k)
  {
    AfterReading(w, t, id, false, up, c, schedule, w2);
    hide Next, Run, PassesAt;
    k := FindPassage(Next(w, Go(t, c)).value, schedule, t, ForcedKill(id, up));
  }

  /** A container that is not RUNNING when it is read is left alone: no signal, no wait. */
  lemma IdleIsLeftAlone(w: World, t: Tid, id: Id, graceful: bool, up: Up, c: Choice)
    requires t in w.calls && w.calls[t] == Stopping(id, graceful, ReadState, up) && Next(w, Go(t, c)).Some?
    requires id in w.objs && w.objs[id].status.State() != RUNNING
    ensures var call := Next(w, Go(t, c)).value.calls[t];
      if up.StopLoop?
      then call.StoppingSb? && call.opc == SbLoop && call.next == up.next + 1 && id in call.seen.idle
      else call == Finished(StopDone(id, false))
  {
    GoCall(w, t, c);
    hide Next;
  }

  /** The same with a grace period: the image was found, for its stop signal, and the signal has been sent. */
  lemma GracefulStopSignals(w: World, t: Tid, id: Id, up: Up, c: Choice, schedule: seq<Action>, w2: World)
    returns (j: nat, k: nat)
    requires ReadsRunning(w, t, id, true, up, c, schedule, w2)
    requires t in w2.calls ==> w2.calls[t] != Finished(Failed)
    requires t in w2.calls ==>
      w2.calls[t] != Stopping(id, true, Image, up) && w2.calls[t] != Stopping(id, true, Term, up)
    ensures PassesAt(Next(w, Go(t, c)).value, schedule, t, ImageGate(id, up), j)
    ensures PassesAt(Next(w, Go(t, c)).value, schedule, t, Signal(id, up), k)
  {
    AfterReading(w, t, id, true, up, c, schedule, w2);
    hide Next, Run, PassesAt;
    j := FindPassage(Next(w, Go(t, c)).value, schedule, t, ImageGate(id, up));
    k := FindPassage(Next(w, Go(t, c)).value, schedule, t, Signal(id, up));
  }

  /** And it comes to the kill only after a first wait has timed out, and to the second wait only after the kill. */
  lemma KillOnlyAfterTimeout(w: World, t: Tid, id: Id, up: Up, c: Choice, schedule: seq<Action>, w2: World)
    returns (k: nat, j: nat)
    requires ReadsRunning(w, t, id, true, up, c, schedule, w2) && t in w2.calls
    requires var call := w2.calls[t];
      && GracefulStop(call, id, up)
      && (call.tpc == Kill || call.tpc == WaitLookup(false) || call.tpc == WaitRead(false))
    ensures PassesAt(Next(w, Go(t, c)).value, schedule, t, Timeout(id, up), k)
    ensures w2.calls[t].tpc != Kill ==> PassesAt(Next(w, Go(t, c)).value, schedule, t, LateKill(id, up), j)
  {
    AfterReading(w, t, id, true, up, c, schedule, w2);
    hide Next, Run, PassesAt;
    k := FindPassage(Next(w, Go(t, c)).value, schedule, t, Timeout(id, up));
    j := 0;
    if w2.calls[t].tpc != Kill {
      j := FindPassage(Next(w, Go(t, c)).value, schedule, t, LateKill(id, up));
    }
  }

  /**
  StopPodSandbox kills what runs: if it returns nil, then every container of the
  sandbox in the store at the List step was inspected, at position `k`, and if
  it was RUNNING there it was killed afterwards, at step `j` of the rest of the run.
  */
  lemma SandboxStopKills(w: World, t: Tid, sid: Id, id: Id, c: Choice, schedule: seq<Action>, w2: World)
    returns (k: nat, j: nat)
    requires Reachable(w) && t in w.calls && w.calls[t].StoppingSb? && ListsFor(w.calls[t], sid)
    requires id in Store(w) && w.objs[id].sandbox == sid && Returns(w, t, c, schedule, w2)
    ensures k < |schedule| && schedule[k].Go? && schedule[k].t == t
    ensures var v := Run(Next(w, Go(t, c)).value, schedule[..k]);
      && v.Some? && AtInspection(v.value, t, sid, id) && id in v.value.objs && Next(v.value, schedule[k]).Some?
      && (v.value.objs[id].status.State() == RUNNING ==>
            PassesAt(Next(v.value, schedule[k]).value, schedule[k + 1..], t, ForcedKill(id, v.value.calls[t].up), j))
  {
    assert Run(w2, []) == Some(w2);
    hide Next, Run, PassesAt, Reachable;
    k := SandboxStopMeansStopped(w, t, sid, id, c, schedule, w2, []);
    j := 0;
    var v := Run(Next(w, Go(t, c)).value, schedule[..k]).value;
    assert schedule[k] == Go(t, schedule[k].c);
    if v.objs[id].status.State() == RUNNING {
      j := ForcedStopKills(v, t, id, v.calls[t].up, schedule[k].c, schedule[k + 1..], w2);
    }
  }

  /** StopPodSandbox, from the List step to a nil return: network, mounts and subscription, each with its reply. */
  lemma SandboxStopTearsDown(w: World, t: Tid, sid: Id, schedule: seq<Action>) returns (k: nat, j: nat, i: nat)
    requires t in w.calls && StopsAt(w.calls[t], sid, {SbList}) && Run(w, schedule).Some?
    requires var w2 := Run(w, schedule).value; t in w2.calls && w2.calls[t].Finished? && w2.calls[t].out != Failed
    ensures PassesAt(w, schedule, t, NetworkGate(sid), k)
    ensures PassesAt(w, schedule, t, UnmountGate(sid), j)
    ensures PassesAt(w, schedule, t, SubscribeGate(sid), i)
  {
    hide Run, PassesAt;
    k := FindPassage(w, schedule, t, NetworkGate(sid));
    j := FindPassage(w, schedule, t, UnmountGate(sid));
    i := FindPassage(w, schedule, t, SubscribeGate(sid));
  }

  lemma FoundTask(w: World, t: Tid, sid: Id, c: Choice)
    requires t in w.calls && StopsAt(w.calls[t], sid, {SbGet}) && sid in w.sbs && w.sbs[sid].task != NoTask
    requires c.reply == Success && Next(w, Go(t, c)).Some?
    ensures var w1 := Next(w, Go(t, c)).value;
      t in w1.calls && StopsAt(w1.calls[t], sid, {if w.sbs[sid].task == Stopped then SbDelete else SbKill})
  {
    GoCall(w, t, c);
    hide Next;
  }

  /** A sandbox task that is found running is killed, waited for and deleted before StopPodSandbox returns nil. */
  lemma SandboxTaskIsKilled(w: World, t: Tid, sid: Id, c: Choice, schedule: seq<Action>)
    returns (k: nat, j: nat, i: nat)
    requires t in w.calls && StopsAt(w.calls[t], sid, {SbGet}) && sid in w.sbs && w.sbs[sid].task == Running
    requires c.reply == Success && Next(w, Go(t, c)).Some? && Run(Next(w, Go(t, c)).value, schedule).Some?
    requires var w2 := Run(Next(w, Go(t, c)).value, schedule).value;
      t in w2.calls && w2.calls[t].Finished? && w2.calls[t].out != Failed
    ensures PassesAt(Next(w, Go(t, c)).value, schedule, t, KillGate(sid), k)
    ensures PassesAt(Next(w, Go(t, c)).value, schedule, t, WaitGate(sid), j)
    ensures PassesAt(Next(w, Go(t, c)).value, schedule, t, DeleteGate(sid), i)
  {
    hide Next, Run, PassesAt;
    FoundTask(w, t, sid, c);
    var w1 := Next(w, Go(t, c)).value;
    k := FindPassage(w1, schedule, t, KillGate(sid));
    j := FindPassage(w1, schedule, t, WaitGate(sid));
    i := FindPassage(w1, schedule, t, DeleteGate(sid));
  }

  /** One that is found stopped is deleted at once: the call fails, or stands before the Delete, or has deleted it. */
  lemma StoppedTaskIsDeleted(w: World, t: Tid, sid: Id, c: Choice, schedule: seq<Action>) returns (k: nat)
    requires t in w.calls && StopsAt(w.calls[t], sid, {SbGet}) && sid in w.sbs && w.sbs[sid].task == Stopped
    requires c.reply == Success && Next(w, Go(t, c)).Some? && Run(Next(w, Go(t, c)).value, schedule).Some?
    requires var w2 := Run(Next(w, Go(t, c)).value, schedule).value;
      t in w2.calls ==> w2.calls[t] != Finished(Failed) && !StopsAt(w2.calls[t], sid, {SbDelete})
    ensures PassesAt(Next(w, Go(t, c)).value, schedule, t, OnlyDelete(sid), k)
  {
    hide Next, Run, PassesAt;
    FoundTask(w, t, sid, c);
    StaysCall(Next(w, Go(t, c)).value, schedule, t);
    k := FindPassage(Next(w, Go(t, c)).value, schedule, t, OnlyDelete(sid));
  }

  // ------------------------------------------------------------- creating

  /** A CreateContainer that returns without an error has acquired every resource. */
  lemma CreateAcquires(w: World, t: Tid, id: Id, schedule: seq<Action>, n: nat) returns (k: nat)
    requires t in w.calls && w.calls[t] == Creating(id, ReserveName) && Run(w, schedule).Some? && n <= 2
    requires var w2 := Run(w, schedule).value; t in w2.calls && w2.calls[t].Finished? && w2.calls[t].out != Failed
    ensures PassesAt(w, schedule, t, AcquireGate(id, n), k)
  {
    hide Run, PassesAt;
    k := FindPassage(w, schedule, t, AcquireGate(id, n));
  }

  /** A RunPodSandbox that returns without an error has made its task and everything after it. */
  lemma RunMakesTask(w: World, t: Tid, sid: Id, schedule: seq<Action>) returns (k: nat, j: nat)
    requires t in w.calls && w.calls[t] == RunningSb(sid, RunReserve) && Run(w, schedule).Some?
    requires var w2 := Run(w, schedule).value; t in w2.calls && w2.calls[t].Finished? && w2.calls[t].out != Failed
    ensures PassesAt(w, schedule, t, TaskGate(sid), k)
    ensures PassesAt(w, schedule, t, RestGate(sid), j)
  {
    hide Run, PassesAt;
    k := FindPassage(w, schedule, t, TaskGate(sid));
    j := FindPassage(w, schedule, t, RestGate(sid));
  }
}
