/**
Every step keeps the invariant.  A step changes at most one call, one
container or one sandbox; `Tame` says what that change may not take away from
the other calls, so that only the stepping call itself is left to look at.
*/
module ServiceProof {
  import opened Wrappers
  import opened ContainerStatus
  import opened Service
  import opened ServiceInv

  // ------------------------------------------------------------ stability

  /** `o` may become `o2` by a step of `who` without disturbing any other call. */
  predicate Tame(who: Option<Tid>, o: Obj, o2: Obj) {
    && o2.sandbox == o.sandbox && o2.name == o.name && o2.creator == o.creator
    && (Listed(o.place) ==> Listed(o2.place))
    && (o.place == Removed ==> o2.place == Removed)
    && (o2.place == Building ==> o.place == Building)
    && (o.status.startedAt != 0 ==> o2.status.startedAt != 0)
    && (RanAndExited(o) ==> RanAndExited(o2))
    && (o2.lock.Some? && o2.lock != who ==> o2.lock == o.lock)
    && (o.lock.Some? && o.lock != who ==>
          && o2.lock == o.lock && o2.tasks == o.tasks && o2.snapshot == o.snapshot
          && (o2.exit.None? ==> o.exit.None? && o2.task == o.task))
    && (o2.remover.Some? && o2.remover != who ==> o2.remover == o.remover)
    && (o.remover.Some? && o.remover != who ==>
          && o2.remover == o.remover && o2.place == o.place
          && o2.snapshot == o.snapshot && o2.rootDir == o.rootDir && o2.ctr == o.ctr)
    && (o.place == Building && Some(o.creator) != who ==>
          && o2.place == o.place && o2.status.createdAt == o.status.createdAt
          && o2.snapshot == o.snapshot && o2.rootDir == o.rootDir && o2.ctr == o.ctr)
  }

  predicate TameSb(who: Option<Tid>, sb: Sandbox, sb2: Sandbox) {
    && sb2.name == sb.name && sb2.creator == sb.creator
    && (Listed(sb.place) ==> Listed(sb2.place))
    && (sb.place == Removed ==> sb2.place == Removed)
    && (sb.place == Building && Some(sb.creator) != who ==> sb2.place == Building)
    && (Listed(sb.place) && sb.task == NoTask ==> sb2.task == NoTask)
  }

  ghost predicate Evolves(who: Option<Tid>, w: World, w2: World) {
    && (forall id :: id in w.objs ==> id in w2.objs && Tame(who, w.objs[id], w2.objs[id]))
    && (forall sid :: sid in w.sbs ==> sid in w2.sbs && TameSb(who, w.sbs[sid], w2.sbs[sid]))
  }

  lemma ListsStable(who: Option<Tid>, w: World, w2: World)
    requires Evolves(who, w, w2)
    ensures forall id :: Known(w, id) ==> Known(w2, id)
    ensures forall sid :: KnownSb(w, sid) ==> KnownSb(w2, sid)
    ensures forall sid, listed, next, seen :: SeenOk(w, sid, listed, next, seen) ==> SeenOk(w2, sid, listed, next, seen)
    ensures forall sid, listed, next :: ListedOk(w, sid, listed, next) ==> ListedOk(w2, sid, listed, next)
  {
  }

  lemma ListsFitStable(who: Option<Tid>, w: World, w2: World, t: Tid, c: Call)
    requires Evolves(who, w, w2) && who != Some(t) && ListsFit(w, t, c)
    ensures ListsFit(w2, t, c)
  {
    ListsStable(who, w, w2);
    hide SeenOk, ListedOk;
  }

  lemma CallFitsStable(who: Option<Tid>, o: Obj, o2: Obj, t: Tid, c: Call)
    requires Tame(who, o, o2) && who != Some(t) && OnContainer(c) && CallFits(o, t, c)
    ensures CallFits(o2, t, c)
  {
  }

  /** Only the call of `who` differs. */
  ghost predicate SameCallsBut(who: Option<Tid>, w: World, w2: World) {
    && (forall t :: t in w2.calls && Some(t) != who ==> t in w.calls && w2.calls[t] == w.calls[t])
    && (forall t :: t in w.calls && Some(t) != who ==> t in w2.calls)
  }

  lemma CallsKept(who: Option<Tid>, w: World, w2: World)
    requires CallsOk(w) && Evolves(who, w, w2) && SameCallsBut(who, w, w2)
    requires who.Some? && who.value in w2.calls ==> CallOk(w2, who.value, w2.calls[who.value])
    ensures CallsOk(w2)
  {
    hide ListsFit, CallFits, Tame;
    forall t | t in w2.calls
      ensures CallOk(w2, t, w2.calls[t])
    {
      if Some(t) != who {
        var c := w.calls[t];
        assert CallOk(w, t, c);
        ListsFitStable(who, w, w2, t, c);
        if OnContainer(c) {
          CallFitsStable(who, w.objs[c.id], w2.objs[c.id], t, c);
        }
      }
    }
  }

  /** Call `c` of `t` is what the container says it is: the owner of what it records for `t`. */
  predicate OwnsOnly(o: Obj, id: Id, t: Tid, c: Call) {
    && (o.lock == Some(t) ==> LockCall(c, id))
    && (o.place == Building && o.creator == t ==> CreateCall(c, id))
    && (o.remover == Some(t) && o.place != Removed ==> RemoveCall(c, id))
  }

  lemma OwnersStable(who: Option<Tid>, w: World, w2: World, id: Id)
    requires id in w.objs && id in w2.objs && OwnersOk(w, id)
    requires Tame(who, w.objs[id], w2.objs[id]) && SameCallsBut(who, w, w2)
    requires who.Some? ==> who.value in w2.calls && OwnsOnly(w2.objs[id], id, who.value, w2.calls[who.value])
    ensures OwnersOk(w2, id)
  {
  }

  // --------------------------------------------- one container, one step

  /** A good step of `t` on container `id`. */
  predicate GoodStep(t: Tid, id: Id, o: Obj, o2: Obj, c2: Call) {
    && ObjOk(o2) && Tame(Some(t), o, o2) && OwnsOnly(o2, id, t, c2)
    && (OnContainer(c2) ==> c2.id == id && CallFits(o2, t, c2))
  }

  lemma CreateGood(o: Obj, names: Index, t: Tid, id: Id, pc: CreatePc, c: Choice)
    requires ObjOk(o) && CallFits(o, t, Creating(id, pc)) && CreateStep(o, names, id, pc, c).Some?
    ensures var d := CreateStep(o, names, id, pc, c).value; GoodStep(t, id, o, d.obj, d.call)
  {
    CreateTame(o, names, t, id, pc, c);
    CreateObjOk(o, names, t, id, pc, c);
    hide ObjOk, Tame;
  }

  lemma CreateTame(o: Obj, names: Index, t: Tid, id: Id, pc: CreatePc, c: Choice)
    requires ObjOk(o) && CallFits(o, t, Creating(id, pc)) && CreateStep(o, names, id, pc, c).Some?
    ensures Tame(Some(t), o, CreateStep(o, names, id, pc, c).value.obj)
  {
  }

  lemma CreateObjOk(o: Obj, names: Index, t: Tid, id: Id, pc: CreatePc, c: Choice)
    requires ObjOk(o) && CallFits(o, t, Creating(id, pc)) && CreateStep(o, names, id, pc, c).Some?
    ensures ObjOk(CreateStep(o, names, id, pc, c).value.obj)
  {
  }

  lemma StartGood(o: Obj, names: Index, t: Tid, id: Id, sb: Option<Sandbox>, pc: StartPc, c: Choice)
    requires ObjOk(o) && CallFits(o, t, Starting(id, pc)) && OwnsOnly(o, id, t, Starting(id, pc))
    requires StartStep(o, names, t, id, sb, pc, c).Some?
    ensures var d := StartStep(o, names, t, id, sb, pc, c).value; GoodStep(t, id, o, d.obj, d.call)
  {
    StartTame(o, names, t, id, sb, pc, c);
    StartObjOk(o, names, t, id, sb, pc, c);
    hide ObjOk, Tame;
  }

  lemma StartTame(o: Obj, names: Index, t: Tid, id: Id, sb: Option<Sandbox>, pc: StartPc, c: Choice)
    requires ObjOk(o) && CallFits(o, t, Starting(id, pc)) && StartStep(o, names, t, id, sb, pc, c).Some?
    ensures Tame(Some(t), o, StartStep(o, names, t, id, sb, pc, c).value.obj)
  {
  }

  lemma StartObjOk(o: Obj, names: Index, t: Tid, id: Id, sb: Option<Sandbox>, pc: StartPc, c: Choice)
    requires ObjOk(o) && CallFits(o, t, Starting(id, pc)) && StartStep(o, names, t, id, sb, pc, c).Some?
    ensures ObjOk(StartStep(o, names, t, id, sb, pc, c).value.obj)
  {
  }

  lemma StopGood(o: Obj, t: Tid, id: Id, graceful: bool, pc: StopPc, up: Up, c: Choice)
    requires ObjOk(o) && CallFits(o, t, Stopping(id, graceful, pc, up))
    requires OwnsOnly(o, id, t, Stopping(id, graceful, pc, up))
    requires StopStep(o, id, graceful, pc, up, c).Some?
    ensures GoodStep(t, id, o, o, StopStep(o, id, graceful, pc, up, c).value)
  {
  }

  lemma RemoveGood(o: Obj, names: Index, t: Tid, id: Id, pc: RemovePc, up: Up, c: Choice)
    requires ObjOk(o) && CallFits(o, t, Removing(id, pc, up)) && OwnsOnly(o, id, t, Removing(id, pc, up))
    requires RemoveStep(o, names, t, id, pc, up, c).Some?
    ensures var d := RemoveStep(o, names, t, id, pc, up, c).value; GoodStep(t, id, o, d.obj, d.call)
  {
    RemoveTame(o, names, t, id, pc, up, c);
    RemoveObjOk(o, names, t, id, pc, up, c);
    hide ObjOk, Tame;
  }

  lemma RemoveTame(o: Obj, names: Index, t: Tid, id: Id, pc: RemovePc, up: Up, c: Choice)
    requires ObjOk(o) && CallFits(o, t, Removing(id, pc, up)) && RemoveStep(o, names, t, id, pc, up, c).Some?
    ensures Tame(Some(t), o, RemoveStep(o, names, t, id, pc, up, c).value.obj)
  {
  }

  lemma RemoveObjOk(o: Obj, names: Index, t: Tid, id: Id, pc: RemovePc, up: Up, c: Choice)
    requires ObjOk(o) && CallFits(o, t, Removing(id, pc, up)) && RemoveStep(o, names, t, id, pc, up, c).Some?
    ensures ObjOk(RemoveStep(o, names, t, id, pc, up, c).value.obj)
  {
  }

  lemma ContainerGood(w: World, t: Tid, call: Call, c: Choice)
    requires OnContainer(call) && call.id in w.objs && ContainerStep(w, t, call, c).Some?
    requires var o := w.objs[call.id]; ObjOk(o) && CallFits(o, t, call) && OwnsOnly(o, call.id, t, call)
    ensures var d := ContainerStep(w, t, call, c).value; GoodStep(t, call.id, w.objs[call.id], d.obj, d.call)
  {
    hide GoodStep, CallFits, ObjOk, OwnsOnly, CreateStep, StartStep, StopStep, RemoveStep;
    var o := w.objs[call.id];
    match call
    case Creating(id, pc) => CreateGood(o, w.names, t, id, pc, c);
    case Starting(id, pc) =>
      StartGood(o, w.names, t, id, if o.sandbox in w.sbs then Some(w.sbs[o.sandbox]) else None, pc, c);
    case Stopping(id, graceful, pc, up) => StopGood(o, t, id, graceful, pc, up, c);
    case Removing(id, pc, up) => RemoveGood(o, w.names, t, id, pc, up, c);
  }

  // --------------------------------------------------- the core, for a world

  /** The call of `t` and its container, taken out of the invariant. */
  lemma Focus(w: World, t: Tid)
    requires ObjsOk(w) && CallsOk(w) && t in w.calls
    ensures CallOk(w, t, w.calls[t])
    ensures forall id :: id in w.objs ==>
      ObjOk(w.objs[id]) && OwnersOk(w, id) && OwnsOnly(w.objs[id], id, t, w.calls[t])
  {
  }

  lemma ContainerEvolves(w: World, t: Tid, call: Call, d: Delta)
    requires OnContainer(call) && call.id in w.objs && GoodStep(t, call.id, w.objs[call.id], d.obj, d.call)
    ensures Evolves(Some(t), w, Apply(w, t, call.id, d))
  {
  }

  lemma StopLists(w: World, t: Tid, id: Id, graceful: bool, pc: StopPc, up: Up, c: Choice)
    requires id in w.objs && ObjOk(w.objs[id]) && CallFits(w.objs[id], t, Stopping(id, graceful, pc, up))
    requires StopUpOk(w, id, up) && StopStep(w.objs[id], id, graceful, pc, up, c).Some?
    ensures ListsFit(w, t, StopStep(w.objs[id], id, graceful, pc, up, c).value)
  {
    var o := w.objs[id];
    if up.StopLoop? && StopStep(o, id, graceful, pc, up, c).value.StoppingSb? {
      assert SeenOk(w, up.sid, up.listed, up.next + 1, StopStep(o, id, graceful, pc, up, c).value.seen);
    } else {
      hide SeenOk;
    }
  }

  lemma RemoveLists(w: World, w2: World, t: Tid, id: Id, pc: RemovePc, up: Up, c: Choice)
    requires id in w.objs && id in w2.objs && CallFits(w.objs[id], t, Removing(id, pc, up))
    requires RemoveUpOk(w2, id, up)
    requires var d := RemoveStep(w.objs[id], w.names, t, id, pc, up, c); d.Some? && w2.objs[id] == d.value.obj
    ensures ListsFit(w2, t, RemoveStep(w.objs[id], w.names, t, id, pc, up, c).value.call)
  {
    if pc == Release && up.RemoveLoop? {
      assert ListedOk(w2, up.sid, up.listed, up.next + 1);
    } else {
      hide ListedOk;
    }
  }

  /** Creating and starting leave no lists behind. */
  lemma PlainCalls(o: Obj, names: Index, t: Tid, id: Id, sb: Option<Sandbox>, cpc: CreatePc, spc: StartPc, c: Choice,
                   w: World)
    ensures var d := CreateStep(o, names, id, cpc, c); d.Some? ==> ListsFit(w, t, d.value.call)
    ensures var d := StartStep(o, names, t, id, sb, spc, c); d.Some? ==> ListsFit(w, t, d.value.call)
  {
  }

  lemma ContainerLists(w: World, t: Tid, call: Call, c: Choice)
    requires OnContainer(call) && call.id in w.objs && CallOk(w, t, call) && ObjOk(w.objs[call.id])
    requires ContainerStep(w, t, call, c).Some?
    requires Evolves(Some(t), w, Apply(w, t, call.id, ContainerStep(w, t, call, c).value))
    ensures var d := ContainerStep(w, t, call, c).value; ListsFit(Apply(w, t, call.id, d), t, d.call)
  {
    var w2 := Apply(w, t, call.id, ContainerStep(w, t, call, c).value);
    ListsStable(Some(t), w, w2);
    hide ObjOk, CallFits, CreateStep, StartStep, StopStep, RemoveStep, SeenOk, ListedOk, Evolves;
    match call
    case Creating(id, pc) => PlainCalls(w.objs[id], w.names, t, id, None, pc, Guard, c, w2);
    case Starting(id, pc) =>
      var o := w.objs[id];
      var sb := if o.sandbox in w.sbs then Some(w.sbs[o.sandbox]) else None;
      PlainCalls(o, w.names, t, id, sb, Build, pc, c, w2);
    case Stopping(id, graceful, pc, up) => StopLists(w2, t, id, graceful, pc, up, c);
    case Removing(id, pc, up) => RemoveLists(w, w2, t, id, pc, up, c);
  }

  lemma ContainerCore(w: World, t: Tid, c: Choice)
    requires ObjsOk(w) && CallsOk(w) && t in w.calls
    requires OnContainer(w.calls[t]) && w.calls[t].id in w.objs && ContainerStep(w, t, w.calls[t], c).Some?
    ensures var d := ContainerStep(w, t, w.calls[t], c).value;
            var w2 := Apply(w, t, w.calls[t].id, d);
            ObjsOk(w2) && CallsOk(w2) && GoodStep(t, w.calls[t].id, w.objs[w.calls[t].id], d.obj, d.call)
  {
    hide ListsFit, CallFits, ObjOk, Tame, OwnersOk, OwnsOnly, ContainerStep;
    var call := w.calls[t];
    var d := ContainerStep(w, t, call, c).value;
    var w2 := Apply(w, t, call.id, d);
    Focus(w, t);
    ContainerGood(w, t, call, c);
    ContainerEvolves(w, t, call, d);
    ContainerLists(w, t, call, c);
    CallsKept(Some(t), w, w2);
    forall id | id in w2.objs
      ensures ObjOk(w2.objs[id]) && OwnersOk(w2, id)
    {
      OwnsAfter(w, t, call, d, id);
      OwnersStable(Some(t), w, w2, id);
    }
  }

  lemma OwnsAfter(w: World, t: Tid, call: Call, d: Delta, id: Id)
    requires OnContainer(call) && call.id in w.objs && GoodStep(t, call.id, w.objs[call.id], d.obj, d.call)
    requires id in w.objs && OwnsOnly(w.objs[id], id, t, call)
    ensures OwnsOnly(Apply(w, t, call.id, d).objs[id], id, t, d.call)
  {
  }

  // ------------------------------------------------- the core, other steps

  lemma RunGood(w: World, t: Tid, sid: Id, pc: RunPc, c: Choice)
    requires sid in w.sbs && w.sbs[sid].place == Building && w.sbs[sid].creator == t
    requires RunStep(w.sbs[sid], w.sbNames, sid, pc, c).Some?
    ensures var d := RunStep(w.sbs[sid], w.sbNames, sid, pc, c).value;
            TameSb(Some(t), w.sbs[sid], d.sb) && CallOk(ApplySb(w, t, sid, d), t, d.call)
  {
  }

  lemma ListingKnown(w: World, order: seq<Id>)
    requires Lists(w, order)
    ensures forall i :: 0 <= i < |order| ==> Known(w, order[i])
  {
    forall i | 0 <= i < |order|
      ensures Known(w, order[i])
    {
      assert order[i] in order;
    }
  }

  lemma SeenSame(w: World, w2: World, sid: Id, listed: seq<Id>, next: nat, seen: Seen)
    requires w2.objs == w.objs && SeenOk(w, sid, listed, next, seen)
    ensures SeenOk(w2, sid, listed, next, seen)
  {
  }

  lemma ListedSame(w: World, w2: World, sid: Id, listed: seq<Id>, next: nat)
    requires w2.objs == w.objs && ListedOk(w, sid, listed, next)
    ensures ListedOk(w2, sid, listed, next)
  {
  }

  lemma StopSbGood(w: World, t: Tid, sid: Id, listed: seq<Id>, next: nat, seen: Seen, pc: StopSbPc, c: Choice)
    requires CallOk(w, t, StoppingSb(sid, listed, next, seen, pc))
    requires StopSbStep(w, w.sbs[sid], sid, listed, next, seen, pc, c).Some?
    ensures var d := StopSbStep(w, w.sbs[sid], sid, listed, next, seen, pc, c).value;
            TameSb(Some(t), w.sbs[sid], d.sb) && CallOk(ApplySb(w, t, sid, d), t, d.call)
  {
    var d := StopSbStep(w, w.sbs[sid], sid, listed, next, seen, pc, c).value;
    if pc == SbList || pc == SbLoop {
      StopSbLoopGood(w, t, sid, listed, next, seen, pc, c);
    } else {
      SeenSame(w, ApplySb(w, t, sid, d), sid, listed, next, seen);
    }
    hide Lists, SeenOk;
  }

  lemma StopSbLoopGood(w: World, t: Tid, sid: Id, listed: seq<Id>, next: nat, seen: Seen, pc: StopSbPc, c: Choice)
    requires CallOk(w, t, StoppingSb(sid, listed, next, seen, pc)) && (pc == SbList || pc == SbLoop)
    requires StopSbStep(w, w.sbs[sid], sid, listed, next, seen, pc, c).Some?
    ensures var d := StopSbStep(w, w.sbs[sid], sid, listed, next, seen, pc, c).value;
            TameSb(Some(t), w.sbs[sid], d.sb) && CallOk(ApplySb(w, t, sid, d), t, d.call)
  {
    if pc == SbList {
      ListingKnown(w, c.order);
    }
    hide Lists;
  }

  lemma RemoveSbGood(w: World, t: Tid, sid: Id, listed: seq<Id>, next: nat, pc: RemoveSbPc, c: Choice)
    requires CallOk(w, t, RemovingSb(sid, listed, next, pc))
    requires RemoveSbStep(w, w.sbs[sid], t, sid, listed, next, pc, c).Some?
    ensures var d := RemoveSbStep(w, w.sbs[sid], t, sid, listed, next, pc, c).value;
            TameSb(Some(t), w.sbs[sid], d.sb) && CallOk(ApplySb(w, t, sid, d), t, d.call)
  {
    var d := RemoveSbStep(w, w.sbs[sid], t, sid, listed, next, pc, c).value;
    var w2 := ApplySb(w, t, sid, d);
    if pc == RsGet || pc == RsSnapshot {
      ListedStart(w2, sid, []);
    } else if pc == RsList {
      ListingKnown(w, c.order);
      ListedStart(w2, sid, c.order);
    } else if pc == RsLoop {
      ListedNext(w, w2, sid, listed, next);
    } else {
      ListedSame(w, w2, sid, listed, next);
    }
    hide Lists, ListedOk;
  }

  lemma ListedStart(w: World, sid: Id, order: seq<Id>)
    requires forall i :: 0 <= i < |order| ==> Known(w, order[i])
    ensures ListedOk(w, sid, order, 0)
  {
  }

  lemma ListedNext(w: World, w2: World, sid: Id, listed: seq<Id>, next: nat)
    requires w2.objs == w.objs && ListedOk(w, sid, listed, next)
    ensures ListedOk(w2, sid, listed, next) && next <= |listed|
    ensures next < |listed| ==> Known(w, listed[next])
    ensures next < |listed| && (w.objs[listed[next]].sandbox == sid ==> w.objs[listed[next]].place == Removed) ==>
      ListedOk(w2, sid, listed, next + 1)
  {
  }

  lemma SandboxGood(w: World, t: Tid, call: Call, c: Choice)
    requires OnSandbox(call) && CallOk(w, t, call) && SandboxStep(w, t, call, c).Some?
    ensures var d := SandboxStep(w, t, call, c).value;
            TameSb(Some(t), w.sbs[call.sid], d.sb) && CallOk(ApplySb(w, t, call.sid, d), t, d.call)
  {
    hide RunStep, StopSbStep, RemoveSbStep, SeenOk, TameSb;
    match call
    case RunningSb(sid, pc) => RunGood(w, t, sid, pc, c);
    case StoppingSb(sid, listed, next, seen, pc) => StopSbGood(w, t, sid, listed, next, seen, pc, c);
    case RemovingSb(sid, listed, next, pc) => RemoveSbGood(w, t, sid, listed, next, pc, c);
  }

  /** A step that changes no container keeps every owner but, at most, `t`. */
  lemma SandboxCore(w: World, t: Tid, c: Choice)
    requires ObjsOk(w) && CallsOk(w) && t in w.calls && OnSandbox(w.calls[t])
    requires w.calls[t].sid in w.sbs && SandboxStep(w, t, w.calls[t], c).Some?
    ensures var d := SandboxStep(w, t, w.calls[t], c).value;
            var w2 := ApplySb(w, t, w.calls[t].sid, d);
            ObjsOk(w2) && CallsOk(w2) && TameSb(Some(t), w.sbs[w.calls[t].sid], d.sb)
  {
    hide ListsFit, CallFits, ObjOk, OwnersOk, SandboxStep;
    var call := w.calls[t];
    var d := SandboxStep(w, t, call, c).value;
    var w2 := ApplySb(w, t, call.sid, d);
    Focus(w, t);
    SandboxGood(w, t, call, c);
    CallsKept(Some(t), w, w2);
    forall id | id in w2.objs
      ensures OwnersOk(w2, id)
    {
      assert OwnsOnly(w2.objs[id], id, t, d.call);
      OwnersStable(Some(t), w, w2, id);
    }
  }

  /** A call `t` that did not exist owned nothing. */
  lemma NewCallCore(w: World, w2: World, t: Tid)
    requires ObjsOk(w) && CallsOk(w) && t !in w.calls && t in w2.calls && SameCallsBut(Some(t), w, w2)
    requires CallOk(w2, t, w2.calls[t]) && w2.objs.Keys !! w2.sbs.Keys
    requires forall id :: id in w.objs ==> id in w2.objs && w2.objs[id] == w.objs[id]
    requires forall sid :: sid in w.sbs ==> sid in w2.sbs && w2.sbs[sid] == w.sbs[sid]
    requires forall id :: id in w2.objs && id !in w.objs ==> ObjOk(w2.objs[id]) && OwnersOk(w2, id)
    ensures ObjsOk(w2) && CallsOk(w2)
  {
    hide CallOk, ObjOk;
    assert Evolves(Some(t), w, w2);
    CallsKept(Some(t), w, w2);
    forall id | id in w2.objs
      ensures ObjOk(w2.objs[id]) && OwnersOk(w2, id)
    {
      if id in w.objs {
        assert OwnersOk(w, id);
      }
    }
  }

  lemma BeginCreateCore(w: World, t: Tid, name: string, sid: Id, id: Id)
    requires ObjsOk(w) && CallsOk(w) && t !in w.calls && Fresh(w, id)
    ensures var w2 := Apply(w, t, id, Delta(Creating(id, ReserveName), NewObj(name, sid, t), w.names));
            ObjsOk(w2) && CallsOk(w2)
  {
    var w2 := Apply(w, t, id, Delta(Creating(id, ReserveName), NewObj(name, sid, t), w.names));
    assert ObjOk(w2.objs[id]) && OwnersOk(w2, id) && CallOk(w2, t, w2.calls[t]);
    hide ObjOk, OwnersOk, CallOk;
    NewCallCore(w, w2, t);
  }

  lemma BeginRunCore(w: World, t: Tid, name: string, sid: Id)
    requires ObjsOk(w) && CallsOk(w) && t !in w.calls && Fresh(w, sid)
    ensures var w2 := ApplySb(w, t, sid, DeltaSb(RunningSb(sid, RunReserve), NewSandbox(name, t), w.sbNames));
            ObjsOk(w2) && CallsOk(w2)
  {
    hide ObjOk, OwnersOk, CallFits;
    NewCallCore(w, ApplySb(w, t, sid, DeltaSb(RunningSb(sid, RunReserve), NewSandbox(name, t), w.sbNames)), t);
  }

  lemma BeginLookupCore(w: World, t: Tid, call: Call)
    requires ObjsOk(w) && CallsOk(w) && t !in w.calls && CallOk(w, t, call)
    ensures var w2 := w.(calls := w.calls[t := call]); ObjsOk(w2) && CallsOk(w2)
  {
    var w2 := w.(calls := w.calls[t := call]);
    assert CallOk(w2, t, call) by { hide CallFits, SeenOk, ListedOk; SameLists(w, w2); }
    hide ObjOk, OwnersOk, CallOk;
    NewCallCore(w, w2, t);
  }

  /** The lists of a call do not depend on the other calls. */
  lemma SameLists(w: World, w2: World)
    requires w2.objs == w.objs && w2.sbs == w.sbs
    ensures forall sid, listed, next, seen :: SeenOk(w, sid, listed, next, seen) ==> SeenOk(w2, sid, listed, next, seen)
    ensures forall sid, listed, next :: ListedOk(w, sid, listed, next) ==> ListedOk(w2, sid, listed, next)
  {
  }

  lemma FirstCallOk(w: World, t: Tid, req: Request)
    requires !req.CreateContainer? && !req.RunPodSandbox?
    ensures CallOk(w, t, FirstCall(w, req))
  {
  }

  lemma BeginCore(w: World, t: Tid, req: Request)
    requires ObjsOk(w) && CallsOk(w) && BeginStep(w, t, req).Some?
    ensures ObjsOk(BeginStep(w, t, req).value) && CallsOk(BeginStep(w, t, req).value)
  {
    hide ObjsOk, CallsOk;
    if req.CreateContainer? && InSandboxStore(w, req.sandbox) {
      BeginCreateCore(w, t, req.name, req.sandbox, req.id);
    } else if req.RunPodSandbox? {
      BeginRunCore(w, t, req.name, req.sid);
    } else if req.CreateContainer? {
      BeginLookupCore(w, t, Finished(Failed));
    } else {
      FirstCallOk(w, t, req);
      hide FirstCall, CallOk;
      BeginLookupCore(w, t, FirstCall(w, req));
    }
  }

  /** A step of the monitor or of a process, on one container. */
  lemma FreeMoveCore(w: World, w2: World, id: Id)
    requires ObjsOk(w) && CallsOk(w) && id in w.objs
    requires w2.calls == w.calls && w2.sbs == w.sbs && w2.objs.Keys == w.objs.Keys
    requires forall x :: x in w.objs && x != id ==> w2.objs[x] == w.objs[x]
    requires Tame(None, w.objs[id], w2.objs[id]) && ObjOk(w2.objs[id])
    ensures ObjsOk(w2) && CallsOk(w2)
  {
    hide CallOk, ObjOk, OwnersOk;
    assert Evolves(None, w, w2);
    CallsKept(None, w, w2);
    forall x | x in w2.objs
      ensures ObjOk(w2.objs[x]) && OwnersOk(w2, x)
    {
      OwnersStable(None, w, w2, x);
    }
  }

  /** The monitor's event is the exit of a running container, as recorded. */
  predicate HandlesExit(o: Obj, ev: Event) {
    ev.ExitEvent? && o.status.State() == RUNNING && !o.dropped && o.exit == Some(Exit(ev.code, ev.at))
  }

  lemma HandleGood(o: Obj, m: Monitor, c: Choice)
    requires ObjOk(o) && (m.Found? || m.Matched? || m.Deleted?) && HandleStep(o, m, c).Some?
    requires !m.Found? ==> HandlesExit(o, m.ev)
    ensures ObjOk(HandleStep(o, m, c).value.obj) && Tame(None, o, HandleStep(o, m, c).value.obj)
  {
  }

  lemma MonitorCore(w: World, c: Choice)
    requires ObjsOk(w) && CallsOk(w) && EventsOk(w) && MonitorStep(w, c).Some?
    ensures ObjsOk(MonitorStep(w, c).value) && CallsOk(MonitorStep(w, c).value)
  {
    hide CallOk, OwnersOk, HandleStep, Tame;
    var w2 := MonitorStep(w, c).value;
    if Handling(w) && !w.monitor.Got? {
      var id := w.monitor.ev.id;
      assert ObjOk(w.objs[id]);
      HandleGood(w.objs[id], w.monitor, c);
      hide ObjOk;
      FreeMoveCore(w, w2, id);
    } else {
      hide ObjOk;
      SameCore(w, w2);
    }
  }

  /** Nothing but the queue and the monitor changes. */
  lemma SameCore(w: World, w2: World)
    requires ObjsOk(w) && CallsOk(w) && w2.objs == w.objs && w2.sbs == w.sbs && w2.calls == w.calls
    ensures ObjsOk(w2) && CallsOk(w2)
  {
    hide CallOk, OwnersOk, ObjOk;
    assert Evolves(None, w, w2);
    CallsKept(None, w, w2);
    forall x | x in w2.objs
      ensures OwnersOk(w2, x)
    {
      OwnersStable(None, w, w2, x);
    }
  }

  lemma ExitGood(o: Obj, code: nat, at: int)
    requires ObjOk(o) && (o.task == Created || o.task == Running) && at != 0
    ensures ObjOk(ExitObj(o, code, at)) && Tame(None, o, ExitObj(o, code, at))
  {
  }

  lemma SandboxExitsCore(w: World, sid: Id)
    requires ObjsOk(w) && CallsOk(w) && sid in w.sbs && w.sbs[sid].task == Running
    ensures var w2 := w.(sbs := w.sbs[sid := w.sbs[sid].(task := Stopped)]); ObjsOk(w2) && CallsOk(w2)
  {
    hide CallOk, OwnersOk, ObjOk;
    var w2 := w.(sbs := w.sbs[sid := w.sbs[sid].(task := Stopped)]);
    CallsKept(None, w, w2);
    forall x | x in w2.objs
      ensures OwnersOk(w2, x)
    {
      OwnersStable(None, w, w2, x);
    }
  }

  lemma EnvCore(w: World, a: Action)
    requires ObjsOk(w) && CallsOk(w) && (a.TaskExits? || a.OtherExits? || a.Oom? || a.SandboxExits?)
    requires EnvStep(w, a).Some?
    ensures ObjsOk(EnvStep(w, a).value) && CallsOk(EnvStep(w, a).value)
  {
    hide CallOk, OwnersOk, ObjOk, Tame, CallsOk;
    var w2 := EnvStep(w, a).value;
    match a
    case TaskExits(id, code, at) =>
      ExitGood(w.objs[id], code, at);
      FreeMoveCore(w, w2, id);
    case OtherExits(_, _, _, _) => SameCore(w, w2);
    case Oom(_) => SameCore(w, w2);
    case SandboxExits(sid) => SandboxExitsCore(w, sid);
  }

  /** Every step keeps the lifecycle, the removal discipline and what each call relies on. */
  lemma CoreKept(w: World, a: Action)
    requires ObjsOk(w) && CallsOk(w) && EventsOk(w) && Next(w, a).Some?
    ensures ObjsOk(Next(w, a).value) && CallsOk(Next(w, a).value)
  {
    hide ObjsOk, EventsOk, ContainerStep, SandboxStep, BeginStep, MonitorStep, EnvStep;
    match a
    case Begin(t, req) => BeginCore(w, t, req);
    case Go(t, c) =>
      assert CallOk(w, t, w.calls[t]);
      if OnContainer(w.calls[t]) {
        ContainerCore(w, t, c);
      } else {
        SandboxCore(w, t, c);
      }
    case MonitorGo(c) => MonitorCore(w, c);
    case TaskExits(_, _, _) => EnvCore(w, a);
    case OtherExits(_, _, _, _) => EnvCore(w, a);
    case Oom(_) => EnvCore(w, a);
    case SandboxExits(_) => EnvCore(w, a);
  }
}
