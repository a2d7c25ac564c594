/**
What failed creations leave behind, under any interleaving: a resource of an
aborted container, or the task of an aborted sandbox, is there only if a step
of the run failed to clean it up.
*/
module AbortSafety {
  import opened Wrappers
  import opened Service
  import opened ServiceInv
  import opened ServiceProof
  import opened ServiceSafety
  import opened CallHistory

  // -------------------------------------------------------------- containers

  /** Snapshot, root directory or containerd container. */
  predicate Has(o: Obj, j: nat) {
    if j == 0 then o.snapshot else if j == 1 then o.rootDir else o.ctr
  }

  /** From this position of CreateContainer the j-th resource is still to be undone if it has to be. */
  predicate StillUndone(pc: CreatePc, j: nat) {
    match pc
    case ReserveName => false
    case Acquire(k) => k > j
    case Build => true
    case AddToStore => true
    case Undo(left) => left > j
    case ReleaseName => false
  }

  /** The j-th resource of a container that failed to be created is not there, or its cleanup is still to come. */
  ghost predicate Tidy(w: World, id: Id, j: nat) {
    id in w.objs && Has(w.objs[id], j) ==>
      && w.objs[id].place != Aborted
      && (w.objs[id].place == Building ==>
            var t := w.objs[id].creator;
            t in w.calls && w.calls[t].Creating? && w.calls[t].id == id && StillUndone(w.calls[t].cpc, j))
  }

  /** The step in which CreateContainer fails to clean the j-th resource of `id` up. */
  predicate UndoFails(w: World, a: Action, id: Id, j: nat) {
    && a.Go? && a.t in w.calls && w.calls[a.t] == Creating(id, Undo(j + 1))
    && a.c.reply != Success && !a.c.effect
  }

  lemma CreateTidy(o: Obj, names: Index, t: Tid, id: Id, pc: CreatePc, c: Choice, j: nat)
    requires CallFits(o, t, Creating(id, pc)) && CreateStep(o, names, id, pc, c).Some? && j <= 2
    requires Has(o, j) ==> StillUndone(pc, j)
    ensures var d := CreateStep(o, names, id, pc, c).value;
      || !Has(d.obj, j)
      || d.obj.place == Stored
      || (d.obj.place == Building && d.call.Creating? && d.call.id == id && StillUndone(d.call.cpc, j))
      || (pc == Undo(j + 1) && c.reply != Success && !c.effect)
  {
  }

  lemma OthersTidy(o: Obj, names: Index, t: Tid, id: Id, sb: Option<Sandbox>, spc: StartPc, rpc: RemovePc, up: Up,
                   c: Choice)
    requires Listed(o.place)
    ensures var d := StartStep(o, names, t, id, sb, spc, c); d.Some? ==> Listed(d.value.obj.place)
    ensures var d := RemoveStep(o, names, t, id, rpc, up, c); d.Some? ==> Listed(d.value.obj.place)
  {
  }

  /** A step of a call on container `id` itself. */
  lemma OwnTidy(w: World, t: Tid, c: Choice, j: nat)
    requires t in w.calls && OnContainer(w.calls[t]) && w.calls[t].id in w.objs && j <= 2
    requires CallFits(w.objs[w.calls[t].id], t, w.calls[t]) && ContainerStep(w, t, w.calls[t], c).Some?
    requires Tidy(w, w.calls[t].id, j)
    ensures var id := w.calls[t].id;
      Tidy(Apply(w, t, id, ContainerStep(w, t, w.calls[t], c).value), id, j) || UndoFails(w, Go(t, c), id, j)
  {
    var o := w.objs[w.calls[t].id];
    hide StartStep, CreateStep, RemoveStep;
    match w.calls[t]
    case Creating(id, pc) =>
      CreateTidy(o, w.names, t, id, pc, c, j);
      CreatorStays(o, w.names, id, pc, c);
    case Starting(id, pc) =>
      OthersTidy(o, w.names, t, id, if o.sandbox in w.sbs then Some(w.sbs[o.sandbox]) else None, pc, Reset, Top, c);
    case Stopping(_, _, _, _) =>
    case Removing(id, pc, up) => OthersTidy(o, w.names, t, id, None, Guard, pc, up, c);
  }

  lemma CreatorStays(o: Obj, names: Index, id: Id, pc: CreatePc, c: Choice)
    requires CreateStep(o, names, id, pc, c).Some?
    ensures CreateStep(o, names, id, pc, c).value.obj.creator == o.creator
  {
  }

  /** What a step of anybody else leaves of a container: enough to keep it tidy. */
  predicate Undisturbed(o: Obj, o2: Obj) {
    && o2.place == o.place && o2.creator == o.creator
    && o2.snapshot == o.snapshot && o2.rootDir == o.rootDir && o2.ctr == o.ctr
  }

  lemma StaysTidy(w: World, w2: World, id: Id, j: nat)
    requires Tidy(w, id, j) && id in w.objs && id in w2.objs && Undisturbed(w.objs[id], w2.objs[id])
    requires w.objs[id].creator in w.calls ==>
      w.objs[id].creator in w2.calls && w2.calls[w.objs[id].creator] == w.calls[w.objs[id].creator]
    ensures Tidy(w2, id, j)
  {
  }

  lemma HandleUndisturbed(o: Obj, m: Monitor, c: Choice)
    requires (m.Found? || m.Matched? || m.Deleted?) && HandleStep(o, m, c).Some?
    ensures Undisturbed(o, HandleStep(o, m, c).value.obj)
  {
  }

  /** A step of a call on something else than container `id`. */
  lemma ElsewhereTidy(w: World, t: Tid, c: Choice, id: Id, j: nat)
    requires CallsOk(w) && ObjsOk(w) && t in w.calls && Next(w, Go(t, c)).Some? && id in w.objs && Tidy(w, id, j)
    requires OnContainer(w.calls[t]) ==> w.calls[t].id != id
    ensures Tidy(Next(w, Go(t, c)).value, id, j)
  {
    var w2 := Next(w, Go(t, c)).value;
    assert OwnersOk(w, id);
    GoTouchesOnly(w, t, c, id);
    hide ObjsOk, CallsOk, Next;
    if w.objs[id].creator == t {
      // Its own creator is at something else, so the container is not being built.
      assert w.objs[id].place != Building;
    } else if w.objs[id].creator in w.calls {
      OthersKeepCall(w, Go(t, c), w.objs[id].creator);
    }
  }

  lemma GoTouchesOnly(w: World, t: Tid, c: Choice, id: Id)
    requires t in w.calls && Next(w, Go(t, c)).Some? && id in w.objs
    requires OnContainer(w.calls[t]) ==> w.calls[t].id != id
    ensures id in Next(w, Go(t, c)).value.objs && Next(w, Go(t, c)).value.objs[id] == w.objs[id]
  {
    hide ContainerStep, SandboxStep;
  }

  lemma GoTidy(w: World, t: Tid, c: Choice, id: Id, j: nat)
    requires CallsOk(w) && ObjsOk(w) && t in w.calls && Next(w, Go(t, c)).Some?
    requires id in w.objs && Tidy(w, id, j) && j <= 2
    ensures Tidy(Next(w, Go(t, c)).value, id, j) || UndoFails(w, Go(t, c), id, j)
  {
    if OnContainer(w.calls[t]) && w.calls[t].id == id {
      assert CallOk(w, t, w.calls[t]);
      hide CallsOk, ObjsOk, ContainerStep, Tidy, CallFits;
      OwnTidy(w, t, c, j);
    } else {
      hide CallsOk, ObjsOk, Next, Tidy;
      ElsewhereTidy(w, t, c, id, j);
    }
  }

  lemma OtherStepTidy(w: World, a: Action, id: Id, j: nat)
    requires Next(w, a).Some? && !a.Go? && id in w.objs && Tidy(w, id, j)
    ensures Tidy(Next(w, a).value, id, j)
  {
    var w2 := Next(w, a).value;
    if a.MonitorGo? && Handling(w) && !w.monitor.Got? && w.monitor.ev.id in w.objs {
      HandleUndisturbed(w.objs[w.monitor.ev.id], w.monitor, a.c);
    }
    hide HandleStep, FirstCall;
    assert id in w2.objs && Undisturbed(w.objs[id], w2.objs[id]);
    if w.objs[id].creator in w.calls {
      OthersKeepCall(w, a, w.objs[id].creator);
    }
    hide Next;
    StaysTidy(w, w2, id, j);
  }

  lemma StepTidy(w: World, a: Action, id: Id, j: nat)
    requires Inv(w) && Next(w, a).Some? && Tidy(w, id, j) && j <= 2
    ensures Tidy(Next(w, a).value, id, j) || UndoFails(w, a, id, j)
  {
    if id !in w.objs {
      NewIsTidy(w, a, id, j);
    } else {
      hide Next, Tidy, ObjsOk, CallsOk, EventsOk, OnceOk, NamesOk, SbNamesOk;
      if a.Go? {
        assert a.t in w.calls by { GoNeedsCall(w, a.t, a.c); }
        GoTidy(w, a.t, a.c, id, j);
      } else {
        OtherStepTidy(w, a, id, j);
      }
    }
  }

  lemma GoNeedsCall(w: World, t: Tid, c: Choice)
    requires Next(w, Go(t, c)).Some?
    ensures t in w.calls
  {
  }

  lemma NewIsTidy(w: World, a: Action, id: Id, j: nat)
    requires Next(w, a).Some? && id !in w.objs
    ensures Tidy(Next(w, a).value, id, j)
  {
    hide ContainerStep, SandboxStep, HandleStep, FirstCall;
  }

  // -------------------------------------------------------------------- runs

  /** Step `k` of the run fails to clean the j-th resource of `id` up. */
  ghost predicate UndoFailsAt(w: World, schedule: seq<Action>, id: Id, j: nat, k: nat) {
    k < |schedule| && Run(w, schedule[..k]).Some? && UndoFails(Run(w, schedule[..k]).value, schedule[k], id, j)
  }

  lemma {:induction false} FindFailure(w: World, schedule: seq<Action>, id: Id, j: nat) returns (k: nat)
    requires Inv(w) && Tidy(w, id, j) && Run(w, schedule).Some? && !Tidy(Run(w, schedule).value, id, j) && j <= 2
    ensures UndoFailsAt(w, schedule, id, j, k)
    decreases |schedule|
  {
    hide Inv, Next, Tidy, UndoFails;
    var a := schedule[0];
    if UndoFails(w, a, id, j) {
      k := 0;
      assert Run(w, schedule[..0]) == Some(w);
    } else {
      StepTidy(w, a, id, j);
      StepKeepsInv(w, a);
      var rest := FindFailure(Next(w, a).value, schedule[1..], id, j);
      k := rest + 1;
      assert schedule[..k][1..] == schedule[1..][..rest];
    }
  }

  /**
  A resource of a container whose creation failed is left only if its own
  cleanup failed, at step `k` of the run.
  */
  lemma AbortedLeavesNothing(schedule: seq<Action>, id: Id, j: nat) returns (k: nat)
    requires Run(INIT, schedule).Some? && j <= 2
    requires var w := Run(INIT, schedule).value; id in w.objs && w.objs[id].place == Aborted && Has(w.objs[id], j)
    ensures UndoFailsAt(INIT, schedule, id, j, k)
  {
    InitOk();
    assert Tidy(INIT, id, j);
    hide Run, UndoFailsAt;
    k := FindFailure(INIT, schedule, id, j);
  }

  // --------------------------------------------------------------- sandboxes

  /** The task of a sandbox that failed to be created is not there, or its cleanup is still to come. */
  ghost predicate TidySandbox(w: World, sid: Id) {
    sid in w.sbs && w.sbs[sid].task != NoTask ==>
      && w.sbs[sid].place != Aborted
      && (w.sbs[sid].place == Building ==>
            var t := w.sbs[sid].creator;
            && t in w.calls && w.calls[t].RunningSb? && w.calls[t].sid == sid
            && (w.calls[t].npc == RunRest || w.calls[t].npc == RunAdd || w.calls[t].npc == RunUndoTask))
  }

  /** The step in which RunPodSandbox fails to stop the task of `sid` again. */
  predicate UndoTaskFails(w: World, a: Action, sid: Id) {
    && a.Go? && a.t in w.calls && w.calls[a.t] == RunningSb(sid, RunUndoTask)
    && a.c.reply != Success && !a.c.effect
  }

  lemma OwnTidySandbox(w: World, t: Tid, c: Choice)
    requires t in w.calls && OnSandbox(w.calls[t]) && CallOk(w, t, w.calls[t])
    requires SandboxStep(w, t, w.calls[t], c).Some? && TidySandbox(w, w.calls[t].sid)
    ensures var sid := w.calls[t].sid;
      || TidySandbox(ApplySb(w, t, sid, SandboxStep(w, t, w.calls[t], c).value), sid)
      || UndoTaskFails(w, Go(t, c), sid)
  {
    hide SeenOk, ListedOk, Lists;
  }

  lemma ElsewhereTidySandbox(w: World, t: Tid, c: Choice, sid: Id)
    requires t in w.calls && Next(w, Go(t, c)).Some? && sid in w.sbs && TidySandbox(w, sid)
    requires OnSandbox(w.calls[t]) ==> w.calls[t].sid != sid
    ensures TidySandbox(Next(w, Go(t, c)).value, sid)
  {
    SandboxUntouched(w, t, c, sid);
    var u := w.sbs[sid].creator;
    if u in w.calls && u != t {
      OthersKeepCall(w, Go(t, c), u);
    }
    hide Next;
  }

  lemma SandboxUntouched(w: World, t: Tid, c: Choice, sid: Id)
    requires t in w.calls && Next(w, Go(t, c)).Some? && sid in w.sbs
    requires OnSandbox(w.calls[t]) ==> w.calls[t].sid != sid
    ensures sid in Next(w, Go(t, c)).value.sbs && Next(w, Go(t, c)).value.sbs[sid] == w.sbs[sid]
  {
    hide ContainerStep, SandboxStep;
  }

  lemma GoTidySandbox(w: World, t: Tid, c: Choice, sid: Id)
    requires CallsOk(w) && t in w.calls && Next(w, Go(t, c)).Some? && sid in w.sbs && TidySandbox(w, sid)
    ensures TidySandbox(Next(w, Go(t, c)).value, sid) || UndoTaskFails(w, Go(t, c), sid)
  {
    if OnSandbox(w.calls[t]) && w.calls[t].sid == sid {
      assert CallOk(w, t, w.calls[t]);
      hide CallsOk, SandboxStep, TidySandbox;
      OwnTidySandbox(w, t, c);
    } else {
      hide CallsOk, Next, TidySandbox;
      ElsewhereTidySandbox(w, t, c, sid);
    }
  }

  lemma OtherStepTidySandbox(w: World, a: Action, sid: Id)
    requires Next(w, a).Some? && !a.Go? && sid in w.sbs && TidySandbox(w, sid)
    ensures TidySandbox(Next(w, a).value, sid)
  {
    hide HandleStep, FirstCall;
    var w2 := Next(w, a).value;
    assert sid in w2.sbs && w2.sbs[sid].place == w.sbs[sid].place && w2.sbs[sid].creator == w.sbs[sid].creator
      && (w2.sbs[sid].task == NoTask <==> w.sbs[sid].task == NoTask);
    if w.sbs[sid].creator in w.calls {
      OthersKeepCall(w, a, w.sbs[sid].creator);
    }
    hide Next;
  }

  lemma StepTidySandbox(w: World, a: Action, sid: Id)
    requires Inv(w) && Next(w, a).Some? && TidySandbox(w, sid)
    ensures TidySandbox(Next(w, a).value, sid) || UndoTaskFails(w, a, sid)
  {
    if sid !in w.sbs {
      NewSandboxIsTidy(w, a, sid);
    } else {
      hide Next, TidySandbox, ObjsOk, CallsOk, EventsOk, OnceOk, NamesOk, SbNamesOk;
      if a.Go? {
        assert a.t in w.calls by { GoNeedsCall(w, a.t, a.c); }
        GoTidySandbox(w, a.t, a.c, sid);
      } else {
        OtherStepTidySandbox(w, a, sid);
      }
    }
  }

  lemma NewSandboxIsTidy(w: World, a: Action, sid: Id)
    requires Next(w, a).Some? && sid !in w.sbs
    ensures TidySandbox(Next(w, a).value, sid)
  {
    hide ContainerStep, SandboxStep, HandleStep, FirstCall;
  }

  ghost predicate UndoTaskFailsAt(w: World, schedule: seq<Action>, sid: Id, k: nat) {
    k < |schedule| && Run(w, schedule[..k]).Some? && UndoTaskFails(Run(w, schedule[..k]).value, schedule[k], sid)
  }

  lemma {:induction false} FindTaskFailure(w: World, schedule: seq<Action>, sid: Id) returns (k: nat)
    requires Inv(w) && TidySandbox(w, sid) && Run(w, schedule).Some? && !TidySandbox(Run(w, schedule).value, sid)
    ensures UndoTaskFailsAt(w, schedule, sid, k)
    decreases |schedule|
  {
    hide Inv, Next, TidySandbox, UndoTaskFails;
    var a := schedule[0];
    if UndoTaskFails(w, a, sid) {
      k := 0;
      assert Run(w, schedule[..0]) == Some(w);
    } else {
      StepTidySandbox(w, a, sid);
      StepKeepsInv(w, a);
      var rest := FindTaskFailure(Next(w, a).value, schedule[1..], sid);
      k := rest + 1;
      assert schedule[..k][1..] == schedule[1..][..rest];
    }
  }

  /** The task of a sandbox whose creation failed is left only if stopping it failed, at step `k` of the run. */
  lemma AbortedLeavesNoTask(schedule: seq<Action>, sid: Id) returns (k: nat)
    requires Run(INIT, schedule).Some?
    requires var w := Run(INIT, schedule).value;
      sid in w.sbs && w.sbs[sid].place == Aborted && w.sbs[sid].task != NoTask
    ensures UndoTaskFailsAt(INIT, schedule, sid, k)
  {
    InitOk();
    assert TidySandbox(INIT, sid);
    hide Run, UndoTaskFailsAt;
    k := FindTaskFailure(INIT, schedule, sid);
  }
}
