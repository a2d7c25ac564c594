/**
From what a call has seen to what it answers: results that start at the step
in which a call reads the store or a status and follow the call, through any
interleaving, to its successful return and beyond.
*/
module CallHistory {
  import opened Wrappers
  import opened ContainerStatus
  import opened Service
  import opened ServiceInv
  import opened ServiceSafety
  import opened SandboxSafety

  // ---------------------------------------------------------- what is carried

  /** What a call cannot forget: the list it walks, or a container that it has read as running. */
  datatype Memory =
    | RemoveList(sid: Id, l: seq<Id>)
    | StopList(sid: Id, l: seq<Id>)
    | SawRunning(id: Id)              // in a stopContainer called by the API
    | LoopSawRunning(sid: Id, id: Id) // in one called by the loop of StopPodSandbox

  /** The call still carries `m`, or has failed. */
  predicate Carries(c: Call, m: Memory) {
    c == Finished(Failed) ||
    match m
    case RemoveList(sid, l) =>
      || (c.RemovingSb? && c.sid == sid && c.listed == l && c.mpc != RsGet && c.mpc != RsSnapshot && c.mpc != RsList)
      || (c.Removing? && c.up.RemoveLoop? && c.up.sid == sid && c.up.listed == l)
      || c == Finished(SandboxRemoved(sid, l))
    case StopList(sid, l) =>
      || (c.StoppingSb? && c.sid == sid && c.listed == l && c.opc != SbList)
      || (c.Stopping? && c.up.StopLoop? && c.up.sid == sid && c.up.listed == l)
      || (c.Finished? && c.out.SandboxStopped? && c.out.sid == sid && c.out.listed == l)
    case SawRunning(id) =>
      || (c.Stopping? && c.id == id && c.tpc != ReadState && c.up == Top)
      || c == Finished(StopDone(id, true))
    case LoopSawRunning(sid, id) =>
      || (c.StoppingSb? && c.sid == sid && c.opc != SbList && id in c.seen.running)
      || (&& c.Stopping? && c.up.StopLoop? && c.up.sid == sid
          && (id in c.up.seen.running || (c.id == id && c.tpc != ReadState)))
      || (c.Finished? && c.out.SandboxStopped? && c.out.sid == sid && id in c.out.seen.running)
  }

  // -------------------------------------------------------- one step of a call

  lemma StopCarries(o: Obj, id: Id, graceful: bool, pc: StopPc, up: Up, c: Choice, m: Memory)
    requires Carries(Stopping(id, graceful, pc, up), m) && StopStep(o, id, graceful, pc, up, c).Some?
    ensures Carries(StopStep(o, id, graceful, pc, up, c).value, m)
  {
  }

  lemma RemoveCarries(o: Obj, names: Index, t: Tid, id: Id, pc: RemovePc, up: Up, c: Choice, m: Memory)
    requires Carries(Removing(id, pc, up), m) && RemoveStep(o, names, t, id, pc, up, c).Some?
    ensures Carries(RemoveStep(o, names, t, id, pc, up, c).value.call, m)
  {
  }

  lemma StopSbCarries(w: World, sb: Sandbox, sid: Id, listed: seq<Id>, next: nat, seen: Seen, pc: StopSbPc, c: Choice,
                      m: Memory)
    requires Carries(StoppingSb(sid, listed, next, seen, pc), m)
    requires StopSbStep(w, sb, sid, listed, next, seen, pc, c).Some?
    ensures Carries(StopSbStep(w, sb, sid, listed, next, seen, pc, c).value.call, m)
  {
    hide Lists;
  }

  lemma RemoveSbCarries(w: World, sb: Sandbox, t: Tid, sid: Id, listed: seq<Id>, next: nat, pc: RemoveSbPc, c: Choice,
                        m: Memory)
    requires Carries(RemovingSb(sid, listed, next, pc), m)
    requires RemoveSbStep(w, sb, t, sid, listed, next, pc, c).Some?
    ensures Carries(RemoveSbStep(w, sb, t, sid, listed, next, pc, c).value.call, m)
  {
    hide Lists;
  }

  /** Where a step takes the call that makes it. */
  lemma GoCall(w: World, t: Tid, c: Choice)
    requires t in w.calls && Next(w, Go(t, c)).Some?
    ensures var call := w.calls[t]; var w2 := Next(w, Go(t, c)).value;
      && t in w2.calls
      && (OnContainer(call) ==> call.id in w.objs && ContainerStep(w, t, call, c).Some?
                                && w2.calls[t] == ContainerStep(w, t, call, c).value.call)
      && (OnSandbox(call) ==> call.sid in w.sbs && SandboxStep(w, t, call, c).Some?
                              && w2.calls[t] == SandboxStep(w, t, call, c).value.call)
      && (OnContainer(call) || OnSandbox(call))
  {
    hide ContainerStep, SandboxStep;
  }

  lemma GoCarries(w: World, t: Tid, c: Choice, m: Memory)
    requires t in w.calls && Carries(w.calls[t], m) && Next(w, Go(t, c)).Some?
    ensures t in Next(w, Go(t, c)).value.calls && Carries(Next(w, Go(t, c)).value.calls[t], m)
  {
    GoCall(w, t, c);
    hide Next, StopStep, RemoveStep, StopSbStep, RemoveSbStep, Carries;
    match w.calls[t]
    case Stopping(id, graceful, pc, up) => StopCarries(w.objs[id], id, graceful, pc, up, c, m);
    case Removing(id, pc, up) => RemoveCarries(w.objs[id], w.names, t, id, pc, up, c, m);
    case StoppingSb(sid, listed, next, seen, pc) =>
      StopSbCarries(w, w.sbs[sid], sid, listed, next, seen, pc, c, m);
    case RemovingSb(sid, listed, next, pc) =>
      RemoveSbCarries(w, w.sbs[sid], t, sid, listed, next, pc, c, m);
    case _ => OthersCarryNothing(w.calls[t], m);
  }

  lemma OthersCarryNothing(c: Call, m: Memory)
    requires c.Creating? || c.Starting? || c.RunningSb?
    ensures !Carries(c, m)
  {
  }

  /** A step of anything else leaves the call alone. */
  lemma OthersKeepCall(w: World, a: Action, t: Tid)
    requires t in w.calls && Next(w, a).Some? && !(a.Go? && a.t == t)
    ensures t in Next(w, a).value.calls && Next(w, a).value.calls[t] == w.calls[t]
  {
    hide ContainerStep, SandboxStep, FirstCall, HandleStep;
  }

  lemma {:induction false} RunCarries(w: World, schedule: seq<Action>, t: Tid, m: Memory)
    requires t in w.calls && Carries(w.calls[t], m) && Run(w, schedule).Some?
    ensures t in Run(w, schedule).value.calls && Carries(Run(w, schedule).value.calls[t], m)
    decreases |schedule|
  {
    hide Next, Carries;
    if schedule != [] {
      var a := schedule[0];
      if a.Go? && a.t == t {
        GoCarries(w, t, a.c, m);
      } else {
        OthersKeepCall(w, a, t);
      }
      RunCarries(Next(w, a).value, schedule[1..], t, m);
    }
  }

  // ------------------------------------------------------------ whole calls

  /** Call `t` takes the step `c` in `w` and has returned without an error in `w2`, `schedule` later. */
  ghost predicate Returns(w: World, t: Tid, c: Choice, schedule: seq<Action>, w2: World) {
    && Next(w, Go(t, c)).Some? && Run(Next(w, Go(t, c)).value, schedule) == Some(w2)
    && t in w2.calls && w2.calls[t].Finished? && w2.calls[t].out != Failed
  }

  /** From a step after which the call carries `m` to its return. */
  lemma ReturnsWith(w: World, t: Tid, c: Choice, schedule: seq<Action>, w2: World, m: Memory)
    requires Reachable(w) && Returns(w, t, c, schedule, w2)
    requires var w1 := Next(w, Go(t, c)).value; t in w1.calls && Carries(w1.calls[t], m)
    ensures Reachable(w2) && Carries(w2.calls[t], m)
  {
    hide Next, Reachable, Carries;
    Extend(w, Go(t, c));
    RunReachable(Next(w, Go(t, c)).value, schedule);
    RunCarries(Next(w, Go(t, c)).value, schedule, t, m);
  }

  /**
  Stop means stopped.  If stopContainer reads the container as RUNNING and
  returns nil, the container has exited when it returns and in every later
  state, whether or not it has been removed meanwhile.
  */
  lemma StopMeansStopped(w: World, t: Tid, id: Id, graceful: bool, c: Choice, schedule: seq<Action>, w2: World,
                         later: seq<Action>)
    requires Reachable(w) && t in w.calls && w.calls[t] == Stopping(id, graceful, ReadState, Top)
    requires id in w.objs && w.objs[id].status.State() == RUNNING
    requires Returns(w, t, c, schedule, w2) && Run(w2, later).Some?
    ensures var w3 := Run(w2, later).value; id in w3.objs && w3.objs[id].status.State() == EXITED
  {
    GoCall(w, t, c);
    hide Next, Reachable, Run;
    ReturnsWith(w, t, c, schedule, w2, SawRunning(id));
    FinishedStop(w2, later, t, id);
  }

  /** The step at which a sandbox call lists the container store. */
  predicate ListsFor(c: Call, sid: Id) {
    || (c.RemovingSb? && c.mpc == RsList && c.sid == sid)
    || (c.StoppingSb? && c.opc == SbList && c.sid == sid)
  }

  /** After it, the call carries a list that has every stored container. */
  lemma ListStep(w: World, t: Tid, c: Choice, sid: Id)
    requires t in w.calls && ListsFor(w.calls[t], sid) && Next(w, Go(t, c)).Some?
    ensures Lists(w, c.order)
    ensures var call := Next(w, Go(t, c)).value.calls[t];
      if w.calls[t].RemovingSb? then call == RemovingSb(sid, c.order, 0, RsLoop)
      else call == StoppingSb(sid, c.order, 0, w.calls[t].seen, SbLoop)
  {
    GoCall(w, t, c);
    hide Next, Lists;
  }

  /**
  Sandbox removal covers its snapshot.  If RemovePodSandbox returns nil, then
  when it returns and in every later state the sandbox and its name are gone,
  and so is every container of the sandbox that was in the store at the List step;
  the name of such a container lingers exactly while another RemoveContainer of
  it is about to release it.
  */
  lemma SandboxRemovalCovers(w: World, t: Tid, sid: Id, id: Id, c: Choice, schedule: seq<Action>, w2: World,
                             later: seq<Action>)
    requires Reachable(w) && t in w.calls && w.calls[t].RemovingSb? && ListsFor(w.calls[t], sid)
    requires id in Store(w) && w.objs[id].sandbox == sid
    requires Returns(w, t, c, schedule, w2) && Run(w2, later).Some?
    ensures var w3 := Run(w2, later).value;
      && sid !in SandboxStore(w3) && sid !in w3.sbNames.keyToName
      && id !in Store(w3) && (id in w3.names.keyToName <==> InReleaseWindow(w3, id))
  {
    ListStep(w, t, c, sid);
    assert id in c.order;
    hide Next, Reachable, Run, Lists, InReleaseWindow;
    ReturnsWith(w, t, c, schedule, w2, RemoveList(sid, c.order));
    SameContainer(w, t, c, schedule, w2, id);
    FinishedRemoval(w2, later, t, sid, c.order, id);
  }

  /** A container stays the same one, of the same sandbox. */
  lemma SameContainer(w: World, t: Tid, c: Choice, schedule: seq<Action>, w2: World, id: Id)
    requires Reachable(w) && id in w.objs && Returns(w, t, c, schedule, w2)
    ensures id in w2.objs && w2.objs[id].sandbox == w.objs[id].sandbox
  {
    ReachableOk(w);
    hide Next, Inv, Reachable;
    assert Run(w, [Go(t, c)] + schedule) == Some(w2) by {
      assert ([Go(t, c)] + schedule)[1..] == schedule;
    }
    RunLater(w, [Go(t, c)] + schedule, id);
  }

  // -------------------------------------------- the containers that are stopped

  /** A StopPodSandbox that has not listed the store yet has seen nothing. */
  ghost predicate FreshLists(w: World) {
    forall t :: t in w.calls && w.calls[t].StoppingSb? && w.calls[t].opc == SbList ==> w.calls[t].seen == Seen({}, {})
  }

  lemma GoFresh(w: World, t: Tid, c: Choice)
    requires t in w.calls && Next(w, Go(t, c)).Some?
    ensures var call := Next(w, Go(t, c)).value.calls[t]; !(call.StoppingSb? && call.opc == SbList)
  {
    GoCall(w, t, c);
    hide Next, Lists;
    if OnContainer(w.calls[t]) {
      ContainerFresh(w, t, w.calls[t], c);
      hide ContainerStep;
    }
  }

  lemma ContainerFresh(w: World, t: Tid, call: Call, c: Choice)
    requires OnContainer(call) && call.id in w.objs && ContainerStep(w, t, call, c).Some?
    ensures var c2 := ContainerStep(w, t, call, c).value.call; !(c2.StoppingSb? && c2.opc == SbList)
  {
  }

  lemma StepFresh(w: World, a: Action)
    requires FreshLists(w) && Next(w, a).Some?
    ensures FreshLists(Next(w, a).value)
  {
    var w2 := Next(w, a).value;
    forall t | t in w2.calls && w2.calls[t].StoppingSb? && w2.calls[t].opc == SbList
      ensures w2.calls[t].seen == Seen({}, {})
    {
      if t in w.calls {
        if a.Go? && a.t == t {
          GoFresh(w, t, a.c);
        } else {
          OthersKeepCall(w, a, t);
        }
      } else {
        NewCall(w, a, t);
      }
    }
    hide Next;
  }

  lemma NewCall(w: World, a: Action, t: Tid)
    requires t !in w.calls && Next(w, a).Some? && t in Next(w, a).value.calls
    ensures var c := Next(w, a).value.calls[t]; c.StoppingSb? ==> c.seen == Seen({}, {})
  {
    hide ContainerStep, SandboxStep, HandleStep;
  }

  lemma {:induction false} RunFresh(w: World, schedule: seq<Action>)
    requires FreshLists(w) && Run(w, schedule).Some?
    ensures FreshLists(Run(w, schedule).value)
    decreases |schedule|
  {
    hide Next, FreshLists;
    if schedule != [] {
      StepFresh(w, schedule[0]);
      RunFresh(Next(w, schedule[0]).value, schedule[1..]);
    }
  }

  lemma ReachableFresh(w: World)
    requires Reachable(w)
    ensures FreshLists(w)
  {
    assert FreshLists(INIT);
    hide FreshLists;
    var schedule :| Run(INIT, schedule) == Some(w);
    RunFresh(INIT, schedule);
  }

  predicate Unseen(id: Id, seen: Seen) {
    id !in seen.running && id !in seen.idle
  }

  /** The loop of StopPodSandbox has not read the state of `id` yet. */
  predicate Uninspected(c: Call, sid: Id, id: Id) {
    || c == Finished(Failed)
    || (c.StoppingSb? && c.sid == sid && c.opc != SbList && Unseen(id, c.seen))
    || (&& c.Stopping? && !c.graceful && c.up.StopLoop? && c.up.sid == sid
        && Unseen(id, c.up.seen) && (c.id == id ==> c.tpc == ReadState))
    || (c.Finished? && c.out.SandboxStopped? && c.out.sid == sid && Unseen(id, c.out.seen))
  }

  /** Call `t`, a StopPodSandbox, is about to read the state of container `id`, to stop it without a grace period. */
  predicate AtInspection(w: World, t: Tid, sid: Id, id: Id) {
    && t in w.calls && w.calls[t].Stopping? && w.calls[t].id == id && w.calls[t].tpc == ReadState
    && !w.calls[t].graceful && w.calls[t].up.StopLoop? && w.calls[t].up.sid == sid
  }

  lemma StepUninspected(w: World, a: Action, t: Tid, sid: Id, id: Id)
    requires t in w.calls && Uninspected(w.calls[t], sid, id) && Next(w, a).Some?
    requires !(a.Go? && a.t == t && AtInspection(w, t, sid, id))
    ensures t in Next(w, a).value.calls && Uninspected(Next(w, a).value.calls[t], sid, id)
  {
    if a.Go? && a.t == t {
      GoCall(w, t, a.c);
      hide Next, StopStep, StopSbStep, Uninspected;
      match w.calls[t]
      case Stopping(x, graceful, pc, up) => StopUninspected(w.objs[x], x, graceful, pc, up, a.c, sid, id);
      case StoppingSb(s, listed, next, seen, pc) =>
        StopSbUninspected(w, w.sbs[s], s, listed, next, seen, pc, a.c, sid, id);
      case _ => OthersInspected(w.calls[t], sid, id);
    } else {
      OthersKeepCall(w, a, t);
      hide Next, Uninspected;
    }
  }

  lemma StopUninspected(o: Obj, x: Id, graceful: bool, pc: StopPc, up: Up, c: Choice, sid: Id, id: Id)
    requires Uninspected(Stopping(x, graceful, pc, up), sid, id) && StopStep(o, x, graceful, pc, up, c).Some?
    requires !(x == id && pc == ReadState && up.StopLoop? && up.sid == sid)
    ensures Uninspected(StopStep(o, x, graceful, pc, up, c).value, sid, id)
  {
  }

  lemma StopSbUninspected(w: World, sb: Sandbox, s: Id, listed: seq<Id>, next: nat, seen: Seen, pc: StopSbPc,
                          c: Choice, sid: Id, id: Id)
    requires Uninspected(StoppingSb(s, listed, next, seen, pc), sid, id)
    requires StopSbStep(w, sb, s, listed, next, seen, pc, c).Some?
    ensures Uninspected(StopSbStep(w, sb, s, listed, next, seen, pc, c).value.call, sid, id)
  {
    hide Lists;
  }

  lemma OthersInspected(c: Call, sid: Id, id: Id)
    requires c.Creating? || c.Starting? || c.RunningSb? || c.Removing? || c.RemovingSb?
    ensures !Uninspected(c, sid, id)
  {
  }

  /** Between a state in which `id` was not inspected and one in which it was, there is the inspection. */
  lemma {:induction false} FindInspection(w: World, schedule: seq<Action>, t: Tid, sid: Id, id: Id) returns (k: nat)
    requires t in w.calls && Uninspected(w.calls[t], sid, id) && Run(w, schedule).Some?
    requires var w2 := Run(w, schedule).value; t in w2.calls ==> !Uninspected(w2.calls[t], sid, id)
    ensures k < |schedule| && schedule[k].Go? && schedule[k].t == t && Run(w, schedule[..k]).Some?
    ensures var v := Run(w, schedule[..k]).value;
      && AtInspection(v, t, sid, id) && Next(v, schedule[k]).Some?
      && Run(Next(v, schedule[k]).value, schedule[k + 1..]) == Run(w, schedule)
    decreases |schedule|
  {
    hide Next, Uninspected, AtInspection;
    var a := schedule[0];
    if a.Go? && a.t == t && AtInspection(w, t, sid, id) {
      k := 0;
      assert Run(w, schedule[..0]) == Some(w);
    } else {
      StepUninspected(w, a, t, sid, id);
      var rest := FindInspection(Next(w, a).value, schedule[1..], t, sid, id);
      k := rest + 1;
      assert schedule[..k][1..] == schedule[1..][..rest];
      assert schedule[k + 1..] == schedule[1..][rest + 1..];
    }
  }

  /** A container that the loop reads as RUNNING has exited when StopPodSandbox returns nil, and ever after. */
  lemma InspectedMeansStopped(v: World, t: Tid, sid: Id, id: Id, c: Choice, schedule: seq<Action>, w2: World,
                              later: seq<Action>)
    requires Reachable(v) && AtInspection(v, t, sid, id) && id in v.objs && v.objs[id].status.State() == RUNNING
    requires Returns(v, t, c, schedule, w2) && Run(w2, later).Some?
    ensures var w3 := Run(w2, later).value; id in w3.objs && w3.objs[id].status.State() == EXITED
  {
    GoCall(v, t, c);
    hide Next, Reachable, Run;
    ReturnsWith(v, t, c, schedule, w2, LoopSawRunning(sid, id));
    ReachableOk(w2);
    OutcomeHolds(w2, t);
    hide Inv;
    RunLater(w2, later, id);
  }

  /** With the whole list inspected, nothing on it is left uninspected. */
  lemma AllInspected(w2: World, t: Tid, sid: Id, l: seq<Id>, id: Id)
    requires Reachable(w2) && t in w2.calls && w2.calls[t].Finished? && w2.calls[t].out != Failed
    requires Carries(w2.calls[t], StopList(sid, l)) && id in l && id in w2.objs && w2.objs[id].sandbox == sid
    ensures !Uninspected(w2.calls[t], sid, id)
  {
    var seen := w2.calls[t].out.seen;
    assert Run(w2, []) == Some(w2);
    FinishedSandboxStop(w2, [], t, sid, l, seen, id);
  }

  /**
  Stop means stopped, for a sandbox.  If StopPodSandbox returns nil, then it has
  inspected, at position `k` of the run, every container of the sandbox that
  was in the store at the List step; and if the container was RUNNING when it was
  inspected, it has exited when the call returns and in every later state.
  */
  lemma SandboxStopMeansStopped(w: World, t: Tid, sid: Id, id: Id, c: Choice, schedule: seq<Action>, w2: World,
                                later: seq<Action>)
    returns (k: nat)
    requires Reachable(w) && t in w.calls && w.calls[t].StoppingSb? && ListsFor(w.calls[t], sid)
    requires id in Store(w) && w.objs[id].sandbox == sid
    requires Returns(w, t, c, schedule, w2) && Run(w2, later).Some?
    ensures k < |schedule| && schedule[k].Go? && schedule[k].t == t
    ensures var v := Run(Next(w, Go(t, c)).value, schedule[..k]);
      && v.Some? && AtInspection(v.value, t, sid, id) && id in v.value.objs
      && Returns(v.value, t, schedule[k].c, schedule[k + 1..], w2)
      && (v.value.objs[id].status.State() == RUNNING ==>
            var w3 := Run(w2, later).value; id in w3.objs && w3.objs[id].status.State() == EXITED)
  {
    ListStep(w, t, c, sid);
    assert id in c.order;
    ReachableFresh(w);
    hide Next, Reachable, Lists, Carries;
    var w1 := Next(w, Go(t, c)).value;
    assert Carries(w1.calls[t], StopList(sid, c.order)) by { StartsList(w1.calls[t], sid, c.order); }
    ReturnsWith(w, t, c, schedule, w2, StopList(sid, c.order));
    SameContainer(w, t, c, schedule, w2, id);
    AllInspected(w2, t, sid, c.order, id);
    k := FindInspection(w1, schedule, t, sid, id);
    var v := Run(w1, schedule[..k]).value;
    Extend(w, Go(t, c));
    RunReachable(w1, schedule[..k]);
    GoCall(v, t, schedule[k].c);
    hide Run, AtInspection, Uninspected, ContainerStep, SandboxStep;
    if v.objs[id].status.State() == RUNNING {
      InspectedMeansStopped(v, t, sid, id, schedule[k].c, schedule[k + 1..], w2, later);
    }
  }

  lemma StartsList(c: Call, sid: Id, l: seq<Id>)
    requires c.StoppingSb? && c.sid == sid && c.listed == l && c.opc == SbLoop
    ensures Carries(c, StopList(sid, l))
  {
  }
}
