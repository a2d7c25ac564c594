/**
Every step keeps the two name indexes in agreement with the stores.
*/
module ServiceNames {
  import opened Wrappers
  import opened ContainerStatus
  import opened Service
  import opened ServiceInv
  import opened ServiceProof
  import Registrar

  // ------------------------------------------------------ container names

  predicate ReservedCall(c: Call, id: Id) {
    c.Creating? && c.id == id && c.cpc != ReserveName
  }

  predicate ReleasingCall(c: Call, id: Id) {
    c.Removing? && c.id == id && c.rpc == Release
  }

  /** A step of `t` from call `c` to `c2` that takes `o` to `o2` and leaves the index alone. */
  predicate KeepsHold(t: Tid, id: Id, o: Obj, c: Call, o2: Obj, c2: Call) {
    && o2.name == o.name && o2.creator == o.creator
    && (o.place == Stored ==>
          o2.place == Stored || (o2.place == Removed && o2.remover == Some(t) && ReleasingCall(c2, id)))
    && (o.place == Building && o.creator == t && ReservedCall(c, id) ==>
          o2.place == Stored || (o2.place == Building && ReservedCall(c2, id)))
    && (o.place == Building && o.creator != t ==> o2.place == Building)
    && (o.place == Removed ==> o2.place == Removed && o2.remover == o.remover)
    && (o.place == Removed && o.remover == Some(t) && ReleasingCall(c, id) ==> ReleasingCall(c2, id))
    && (o2.place == Stored ==> o.place == Stored || ReservedCall(c, id))
    && (ReservedCall(c2, id) ==> ReservedCall(c, id))
    && (ReleasingCall(c2, id) ==> o.place == Stored || ReleasingCall(c, id))
    && (c2.Creating? || c2.Removing? ==> c2.id == id)
  }

  lemma HoldStable(w: World, t: Tid, id: Id, d: Delta)
    requires NamesOk(w) && t in w.calls && OnContainer(w.calls[t]) && w.calls[t].id == id && id in w.objs
    requires d.names == w.names && KeepsHold(t, id, w.objs[id], w.calls[t], d.obj, d.call)
    ensures NamesOk(Apply(w, t, id, d))
  {
    var w2 := Apply(w, t, id, d);
    forall x | x in w2.names.keyToName
      ensures NameHeld(w2, x)
    {
      assert NameHeld(w, x);
    }
  }

  /** The id is new to the index, so that the reservation adds exactly one pair. */
  lemma ReserveAdds(names: Index, name: string, id: Id)
    requires names.Inverse() && id !in names.keyToName && !names.Refuses(name, id)
    ensures names.Reserve(name, id).Inverse() && names.Reserve(name, id).keyToName == names.keyToName[id := name]
  {
  }

  lemma ReserveHolds(w: World, t: Tid, id: Id, d: Delta)
    requires NamesOk(w) && t in w.calls && w.calls[t] == Creating(id, ReserveName) && id in w.objs
    requires w.objs[id].place == Building && w.objs[id].creator == t
    requires d.call == Creating(id, Acquire(0)) && d.obj == w.objs[id]
    requires d.names.Inverse() && d.names.keyToName == w.names.keyToName[id := w.objs[id].name]
    ensures NamesOk(Apply(w, t, id, d))
  {
    hide Registrar.Index.Inverse;
    var w2 := Apply(w, t, id, d);
    assert NameHeld(w2, id);
    hide NameHeld;
    forall x | x in w2.names.keyToName
      ensures NameHeld(w2, x)
    {
      if x != id {
        assert x in w.objs by { NameHasObj(w, x); }
        OtherHeld(w, w2, t, id, x);
      }
    }
  }

  /** A step of `t` on container `id` does not touch what holds the name of another container. */
  lemma OtherHeld(w: World, w2: World, t: Tid, id: Id, x: Id)
    requires t in w.calls && OnContainer(w.calls[t]) && w.calls[t].id == id && SameCallsBut(Some(t), w, w2)
    requires x != id && x in w.names.keyToName && NameHeld(w, x)
    requires x in w2.objs && w2.objs[x] == w.objs[x]
    requires x in w2.names.keyToName && w2.names.keyToName[x] == w.names.keyToName[x]
    ensures NameHeld(w2, x)
  {
  }

  /** The entry of `id` leaves the index when nothing holds it any more. */
  lemma ReleaseHolds(w: World, t: Tid, id: Id, d: Delta)
    requires NamesOk(w) && t in w.calls && OnContainer(w.calls[t]) && w.calls[t].id == id && id in w.objs
    requires d.names.Inverse() && d.names.keyToName == w.names.keyToName - {id}
    requires d.obj.place == Aborted || d.obj.place == Removed
    requires !d.call.Creating? && !d.call.Removing?
    requires forall x :: x in w.calls && x != t ==> !CreateCall(w.calls[x], id) && !ReleasingCall(w.calls[x], id)
    ensures NamesOk(Apply(w, t, id, d))
  {
    hide NameHeld, Registrar.Index.Inverse;
    var w2 := Apply(w, t, id, d);
    forall x | x in w2.names.keyToName
      ensures NameHeld(w2, x)
    {
      assert x in w.objs by { NameHasObj(w, x); }
      OtherHeld(w, w2, t, id, x);
    }
  }

  lemma NameHasObj(w: World, x: Id)
    requires x in w.names.keyToName && NameHeld(w, x)
    ensures x in w.objs
  {
  }

  lemma CreateKeepsHold(o: Obj, names: Index, t: Tid, id: Id, pc: CreatePc, c: Choice)
    requires ObjOk(o) && CallFits(o, t, Creating(id, pc)) && CreateStep(o, names, id, pc, c).Some?
    requires pc != ReserveName && pc != ReleaseName
    ensures var d := CreateStep(o, names, id, pc, c).value;
            d.names == names && KeepsHold(t, id, o, Creating(id, pc), d.obj, d.call)
  {
  }

  lemma StartKeepsHold(o: Obj, names: Index, t: Tid, id: Id, sb: Option<Sandbox>, pc: StartPc, c: Choice)
    requires CallFits(o, t, Starting(id, pc)) && StartStep(o, names, t, id, sb, pc, c).Some?
    ensures var d := StartStep(o, names, t, id, sb, pc, c).value;
            d.names == names && KeepsHold(t, id, o, Starting(id, pc), d.obj, d.call)
  {
  }

  lemma RemoveKeepsHold(o: Obj, names: Index, t: Tid, id: Id, pc: RemovePc, up: Up, c: Choice)
    requires ObjOk(o) && CallFits(o, t, Removing(id, pc, up)) && RemoveStep(o, names, t, id, pc, up, c).Some?
    requires pc != Release
    ensures var d := RemoveStep(o, names, t, id, pc, up, c).value;
            d.names == names && KeepsHold(t, id, o, Removing(id, pc, up), d.obj, d.call)
  {
  }

  lemma StopKeepsHold(o: Obj, t: Tid, id: Id, graceful: bool, pc: StopPc, up: Up, c: Choice)
    requires CallFits(o, t, Stopping(id, graceful, pc, up)) && StopStep(o, id, graceful, pc, up, c).Some?
    ensures KeepsHold(t, id, o, Stopping(id, graceful, pc, up), o, StopStep(o, id, graceful, pc, up, c).value)
  {
  }

  lemma CreateNames(w: World, t: Tid, id: Id, pc: CreatePc, c: Choice)
    requires ObjsOk(w) && CallsOk(w) && NamesOk(w) && t in w.calls && w.calls[t] == Creating(id, pc)
    requires id in w.objs && CreateStep(w.objs[id], w.names, id, pc, c).Some?
    ensures NamesOk(Apply(w, t, id, CreateStep(w.objs[id], w.names, id, pc, c).value))
  {
    var o := w.objs[id];
    var d := CreateStep(o, w.names, id, pc, c).value;
    assert CallOk(w, t, w.calls[t]) && ObjOk(o);
    if pc == ReserveName && !w.names.Refuses(o.name, id) {
      assert id in w.names.keyToName ==> NameHeld(w, id);
      ReserveAdds(w.names, o.name, id);
      hide ObjsOk, CallsOk, NamesOk;
      ReserveHolds(w, t, id, d);
    } else if pc == ReserveName {
      hide ObjsOk, CallsOk;
      assert id in w.names.keyToName ==> NameHeld(w, id);
      AbortHolds(w, t, id, d);
    } else if pc == ReleaseName {
      hide NamesOk;
      CreateReleases(w, t, id, d);
    } else {
      CreateKeepsHold(o, w.names, t, id, pc, c);
      hide ObjsOk, CallsOk, NamesOk, CreateStep, KeepsHold;
      HoldStable(w, t, id, d);
    }
  }

  /** While a container is being built, or its name is being released, no other call holds the name. */
  lemma SoleHolder(w: World, t: Tid, id: Id)
    requires CallsOk(w) && t in w.calls && id in w.objs && CallOk(w, t, w.calls[t])
    requires w.calls[t] == Creating(id, ReleaseName)
    ensures w.objs[id].place == Building
    ensures forall x :: x in w.calls && x != t ==> !CreateCall(w.calls[x], id) && !ReleasingCall(w.calls[x], id)
  {
    forall x | x in w.calls && x != t
      ensures !CreateCall(w.calls[x], id) && !ReleasingCall(w.calls[x], id)
    {
      assert CallOk(w, x, w.calls[x]);
    }
  }

  /** The last step of a failed creation. */
  lemma CreateReleases(w: World, t: Tid, id: Id, d: Delta)
    requires CallsOk(w) && NamesOk(w) && t in w.calls && w.calls[t] == Creating(id, ReleaseName) && id in w.objs
    requires d == Delta(Finished(Failed), w.objs[id].(place := Aborted), w.names.ReleaseByName(w.objs[id].name))
    ensures NamesOk(Apply(w, t, id, d))
  {
    assert CallOk(w, t, w.calls[t]);
    SoleHolder(w, t, id);
    hide CallsOk, CallOk;
    assert id in w.names.keyToName && NameHeld(w, id);
    assert d.names == w.names.ReleaseByKey(id);
    Registrar.ReleaseKeepsInverse(w.names, "", id);
    hide NamesOk, Registrar.Index.Inverse, Registrar.Index.ReleaseByKey, Registrar.Index.ReleaseByName;
    ReleaseHolds(w, t, id, d);
  }

  /** A creation whose reservation was refused holds nothing. */
  lemma AbortHolds(w: World, t: Tid, id: Id, d: Delta)
    requires NamesOk(w) && t in w.calls && w.calls[t] == Creating(id, ReserveName) && id in w.objs
    requires id !in w.names.keyToName && d.names == w.names && d.call.Finished? && d.obj.place == Aborted
    ensures NamesOk(Apply(w, t, id, d))
  {
    var w2 := Apply(w, t, id, d);
    forall x | x in w2.names.keyToName
      ensures NameHeld(w2, x)
    {
      assert NameHeld(w, x);
    }
  }

  lemma RemoveNames(w: World, t: Tid, id: Id, pc: RemovePc, up: Up, c: Choice)
    requires ObjsOk(w) && CallsOk(w) && NamesOk(w) && t in w.calls && w.calls[t] == Removing(id, pc, up)
    requires id in w.objs && RemoveStep(w.objs[id], w.names, t, id, pc, up, c).Some?
    ensures NamesOk(Apply(w, t, id, RemoveStep(w.objs[id], w.names, t, id, pc, up, c).value))
  {
    var o := w.objs[id];
    var d := RemoveStep(o, w.names, t, id, pc, up, c).value;
    assert CallOk(w, t, w.calls[t]) && ObjOk(o);
    if pc == Release {
      forall x | x in w.calls && x != t
        ensures !CreateCall(w.calls[x], id) && !ReleasingCall(w.calls[x], id)
      {
        assert CallOk(w, x, w.calls[x]);
      }
      Registrar.ReleaseKeepsInverse(w.names, "", id);
      hide ObjsOk, CallsOk, NamesOk, CallFits, ObjOk, Registrar.Index.Inverse;
      ReleaseHolds(w, t, id, d);
    } else {
      RemoveKeepsHold(o, w.names, t, id, pc, up, c);
      hide ObjsOk, CallsOk, NamesOk, RemoveStep, KeepsHold;
      HoldStable(w, t, id, d);
    }
  }

  lemma ContainerNames(w: World, t: Tid, c: Choice)
    requires ObjsOk(w) && CallsOk(w) && NamesOk(w) && t in w.calls && OnContainer(w.calls[t])
    requires w.calls[t].id in w.objs && ContainerStep(w, t, w.calls[t], c).Some?
    ensures NamesOk(Apply(w, t, w.calls[t].id, ContainerStep(w, t, w.calls[t], c).value))
  {
    assert CallOk(w, t, w.calls[t]);
    hide ObjsOk, CallsOk, NamesOk, CreateStep, StartStep, StopStep, RemoveStep, KeepsHold;
    var call := w.calls[t];
    var d := ContainerStep(w, t, call, c).value;
    var o := w.objs[call.id];
    match call
    case Creating(id, pc) => CreateNames(w, t, id, pc, c);
    case Starting(id, pc) =>
      StartKeepsHold(o, w.names, t, id, if o.sandbox in w.sbs then Some(w.sbs[o.sandbox]) else None, pc, c);
      HoldStable(w, t, id, d);
    case Stopping(id, graceful, pc, up) =>
      StopKeepsHold(o, t, id, graceful, pc, up, c);
      HoldStable(w, t, id, d);
    case Removing(id, pc, up) => RemoveNames(w, t, id, pc, up, c);
  }

  /** A step that leaves the index and the place of every container alone. */
  ghost predicate NameQuiet(who: Option<Tid>, w: World, w2: World) {
    && w2.names == w.names && SameCallsBut(who, w, w2)
    && (forall x :: x in w.objs ==>
          && x in w2.objs && w2.objs[x].name == w.objs[x].name && w2.objs[x].place == w.objs[x].place
          && w2.objs[x].creator == w.objs[x].creator && w2.objs[x].remover == w.objs[x].remover)
    && (forall x :: x in w2.objs && x !in w.objs ==> w2.objs[x].place == Building)
    && (who.Some? && who.value in w.calls ==> !w.calls[who.value].Creating? && !w.calls[who.value].Removing?)
    && (who.Some? && who.value in w2.calls && w2.calls[who.value].Creating? ==> w2.calls[who.value].cpc == ReserveName)
    && (who.Some? && who.value in w2.calls && w2.calls[who.value].Removing? ==>
          w2.calls[who.value].rpc == SetRemovingPc)
  }

  lemma QuietNames(who: Option<Tid>, w: World, w2: World)
    requires NamesOk(w) && NameQuiet(who, w, w2)
    ensures NamesOk(w2)
  {
    forall x | x in w2.names.keyToName
      ensures NameHeld(w2, x)
    {
      assert NameHeld(w, x);
      hide NamesOk;
      QuietHeld(who, w, w2, x);
    }
    hide NameHeld, Registrar.Index.Inverse;
  }

  lemma QuietHeld(who: Option<Tid>, w: World, w2: World, x: Id)
    requires NameQuiet(who, w, w2) && x in w.names.keyToName && NameHeld(w, x)
    ensures NameHeld(w2, x)
  {
  }

  /** Steps of sandbox calls change no container and never go on as a creation. */
  lemma SandboxCallKind(w: World, t: Tid, call: Call, c: Choice)
    requires OnSandbox(call) && call.sid in w.sbs && SandboxStep(w, t, call, c).Some?
    ensures var c2 := SandboxStep(w, t, call, c).value.call;
            !c2.Creating? && (c2.Removing? ==> c2.rpc == SetRemovingPc)
  {
  }

  // --------------------------------------------------------- sandbox names

  predicate RunReservedCall(c: Call, sid: Id) {
    c.RunningSb? && c.sid == sid && c.npc != RunReserve
  }

  predicate SbReleasingCall(c: Call, sid: Id) {
    c.RemovingSb? && c.sid == sid && c.mpc == RsRelease
  }

  predicate DoneRemoving(c: Call, sid: Id) {
    c.Finished? && c.out.SandboxRemoved? && c.out.sid == sid
  }

  predicate KeepsHoldSb(t: Tid, sid: Id, sb: Sandbox, c: Call, sb2: Sandbox, c2: Call) {
    && sb2.name == sb.name && sb2.creator == sb.creator
    && (sb.place == Stored ==>
          sb2.place == Stored || (sb2.place == Removed && sb2.remover == t && SbReleasingCall(c2, sid)))
    && (sb.place == Building && sb.creator == t && RunReservedCall(c, sid) ==>
          sb2.place == Stored || (sb2.place == Building && RunReservedCall(c2, sid)))
    && (sb.place == Building && sb.creator != t ==> sb2.place == Building)
    && (sb.place == Removed ==> sb2.place == Removed && sb2.remover == sb.remover)
    && (sb.place == Removed && sb.remover == t && SbReleasingCall(c, sid) ==> SbReleasingCall(c2, sid))
    && (sb2.place == Stored ==> sb.place == Stored || RunReservedCall(c, sid))
    && (c2.RunningSb? ==> c2.sid == sid && (RunReservedCall(c2, sid) ==> RunReservedCall(c, sid)))
    && !(c2.Finished? && c2.out.SandboxRemoved?)
  }

  lemma SbHoldStable(w: World, t: Tid, sid: Id, d: DeltaSb)
    requires SbNamesOk(w) && t in w.calls && OnSandbox(w.calls[t]) && w.calls[t].sid == sid && sid in w.sbs
    requires d.names == w.sbNames && KeepsHoldSb(t, sid, w.sbs[sid], w.calls[t], d.sb, d.call)
    ensures SbNamesOk(ApplySb(w, t, sid, d))
  {
    var w2 := ApplySb(w, t, sid, d);
    forall x | x in w2.sbNames.keyToName
      ensures SbNameHeld(w2, x)
    {
      assert SbNameHeld(w, x);
    }
  }

  lemma SbReserveHolds(w: World, t: Tid, sid: Id, d: DeltaSb)
    requires SbNamesOk(w) && t in w.calls && w.calls[t] == RunningSb(sid, RunReserve) && sid in w.sbs
    requires w.sbs[sid].place == Building && w.sbs[sid].creator == t && !w.sbNames.Refuses(w.sbs[sid].name, sid)
    requires forall x :: x in w.calls ==> !DoneRemoving(w.calls[x], sid)
    requires d == DeltaSb(RunningSb(sid, RunTask), w.sbs[sid], w.sbNames.Reserve(w.sbs[sid].name, sid))
    ensures SbNamesOk(ApplySb(w, t, sid, d))
  {
    var w2 := ApplySb(w, t, sid, d);
    assert sid in w.sbNames.keyToName ==> SbNameHeld(w, sid);
    Registrar.ReserveKeepsInverse(w.sbNames, w.sbs[sid].name, sid);
    forall x | x in w2.sbNames.keyToName
      ensures SbNameHeld(w2, x)
    {
      if x != sid {
        assert SbNameHeld(w, x);
      }
    }
  }

  lemma SbReleaseHolds(w: World, t: Tid, sid: Id, d: DeltaSb)
    requires SbNamesOk(w) && t in w.calls && OnSandbox(w.calls[t]) && w.calls[t].sid == sid && sid in w.sbs
    requires d.names == w.sbNames.ReleaseByKey(sid) && (d.sb.place == Aborted || d.sb.place == Removed)
    requires d.call.Finished? && (d.call.out.SandboxRemoved? ==> d.call.out.sid == sid)
    requires forall x :: x in w.calls && x != t && w.calls[x].RunningSb? ==> w.calls[x].sid != sid
    ensures SbNamesOk(ApplySb(w, t, sid, d))
  {
    var w2 := ApplySb(w, t, sid, d);
    Registrar.ReleaseKeepsInverse(w.sbNames, "", sid);
    assert sid !in w2.sbNames.keyToName;
    forall x | x in w2.sbNames.keyToName
      ensures SbNameHeld(w2, x)
    {
      assert SbNameHeld(w, x);
    }
  }

  lemma SbAbortHolds(w: World, t: Tid, sid: Id, d: DeltaSb)
    requires SbNamesOk(w) && t in w.calls && w.calls[t] == RunningSb(sid, RunReserve) && sid in w.sbs
    requires sid !in w.sbNames.keyToName && d.names == w.sbNames && d.call == Finished(Failed) && d.sb.place == Aborted
    ensures SbNamesOk(ApplySb(w, t, sid, d))
  {
    var w2 := ApplySb(w, t, sid, d);
    forall x | x in w2.sbNames.keyToName
      ensures SbNameHeld(w2, x)
    {
      assert SbNameHeld(w, x);
    }
  }

  lemma RunKeepsHold(sb: Sandbox, names: Index, t: Tid, sid: Id, pc: RunPc, c: Choice)
    requires sb.place == Building && sb.creator == t && RunStep(sb, names, sid, pc, c).Some?
    requires pc != RunReserve && pc != RunRelease
    ensures var d := RunStep(sb, names, sid, pc, c).value;
            d.names == names && KeepsHoldSb(t, sid, sb, RunningSb(sid, pc), d.sb, d.call)
  {
  }

  lemma StopSbKeepsHold(w: World, sb: Sandbox, t: Tid, sid: Id, listed: seq<Id>, next: nat, seen: Seen, pc: StopSbPc,
                        c: Choice)
    requires Listed(sb.place) && StopSbStep(w, sb, sid, listed, next, seen, pc, c).Some?
    ensures var d := StopSbStep(w, sb, sid, listed, next, seen, pc, c).value;
            d.names == w.sbNames && KeepsHoldSb(t, sid, sb, StoppingSb(sid, listed, next, seen, pc), d.sb, d.call)
  {
    hide Lists;
  }

  lemma RemoveSbKeepsHold(w: World, sb: Sandbox, t: Tid, sid: Id, listed: seq<Id>, next: nat, pc: RemoveSbPc, c: Choice)
    requires Listed(sb.place) && pc != RsRelease && RemoveSbStep(w, sb, t, sid, listed, next, pc, c).Some?
    ensures var d := RemoveSbStep(w, sb, t, sid, listed, next, pc, c).value;
            d.names == w.sbNames && KeepsHoldSb(t, sid, sb, RemovingSb(sid, listed, next, pc), d.sb, d.call)
  {
    hide Lists;
  }

  /** While a sandbox is being built, no call has removed it and only its creator is at it. */
  lemma BuildingAlone(w: World, t: Tid, sid: Id)
    requires CallsOk(w) && sid in w.sbs && w.sbs[sid].place == Building && w.sbs[sid].creator == t
    ensures forall x :: x in w.calls ==> !DoneRemoving(w.calls[x], sid)
    ensures forall x :: x in w.calls && x != t && w.calls[x].RunningSb? ==> w.calls[x].sid != sid
  {
    forall x | x in w.calls
      ensures !DoneRemoving(w.calls[x], sid)
      ensures x != t && w.calls[x].RunningSb? ==> w.calls[x].sid != sid
    {
      assert CallOk(w, x, w.calls[x]);
    }
  }

  lemma RunNames(w: World, t: Tid, sid: Id, pc: RunPc, c: Choice)
    requires CallsOk(w) && SbNamesOk(w) && t in w.calls && w.calls[t] == RunningSb(sid, pc)
    requires sid in w.sbs && RunStep(w.sbs[sid], w.sbNames, sid, pc, c).Some?
    ensures SbNamesOk(ApplySb(w, t, sid, RunStep(w.sbs[sid], w.sbNames, sid, pc, c).value))
  {
    var sb := w.sbs[sid];
    var d := RunStep(sb, w.sbNames, sid, pc, c).value;
    assert CallOk(w, t, w.calls[t]);
    BuildingAlone(w, t, sid);
    hide CallsOk;
    if pc == RunReserve {
      assert sid in w.sbNames.keyToName ==> SbNameHeld(w, sid);
      if w.sbNames.Refuses(sb.name, sid) {
        SbAbortHolds(w, t, sid, d);
      } else {
        hide SbNamesOk;
        SbReserveHolds(w, t, sid, d);
      }
    } else if pc == RunRelease {
      assert sid in w.sbNames.keyToName && SbNameHeld(w, sid);
      Registrar.ReleaseKeepsInverse(w.sbNames, sb.name, sid);
      SbReleaseHolds(w, t, sid, d);
    } else {
      RunKeepsHold(sb, w.sbNames, t, sid, pc, c);
      hide SbNamesOk, RunStep, KeepsHoldSb;
      SbHoldStable(w, t, sid, d);
    }
  }

  lemma RemoveSbNames(w: World, t: Tid, sid: Id, listed: seq<Id>, next: nat, pc: RemoveSbPc, c: Choice)
    requires CallsOk(w) && SbNamesOk(w) && t in w.calls && w.calls[t] == RemovingSb(sid, listed, next, pc)
    requires sid in w.sbs && RemoveSbStep(w, w.sbs[sid], t, sid, listed, next, pc, c).Some?
    ensures SbNamesOk(ApplySb(w, t, sid, RemoveSbStep(w, w.sbs[sid], t, sid, listed, next, pc, c).value))
  {
    var d := RemoveSbStep(w, w.sbs[sid], t, sid, listed, next, pc, c).value;
    assert CallOk(w, t, w.calls[t]);
    if pc == RsRelease {
      forall x | x in w.calls && x != t && w.calls[x].RunningSb?
        ensures w.calls[x].sid != sid
      {
        assert CallOk(w, x, w.calls[x]);
      }
      hide CallsOk, SbNamesOk;
      SbReleaseHolds(w, t, sid, d);
    } else {
      RemoveSbKeepsHold(w, w.sbs[sid], t, sid, listed, next, pc, c);
      hide CallsOk, SbNamesOk, RemoveSbStep, KeepsHoldSb;
      SbHoldStable(w, t, sid, d);
    }
  }

  lemma SandboxNames(w: World, t: Tid, c: Choice)
    requires CallsOk(w) && SbNamesOk(w) && t in w.calls && OnSandbox(w.calls[t])
    requires w.calls[t].sid in w.sbs && SandboxStep(w, t, w.calls[t], c).Some?
    ensures SbNamesOk(ApplySb(w, t, w.calls[t].sid, SandboxStep(w, t, w.calls[t], c).value))
  {
    assert CallOk(w, t, w.calls[t]);
    hide CallsOk, SbNamesOk, RunStep, StopSbStep, RemoveSbStep, KeepsHoldSb, ListedOk, SeenOk;
    match w.calls[t]
    case RunningSb(sid, pc) => RunNames(w, t, sid, pc, c);
    case StoppingSb(sid, listed, next, seen, pc) =>
      StopSbKeepsHold(w, w.sbs[sid], t, sid, listed, next, seen, pc, c);
      SbHoldStable(w, t, sid, SandboxStep(w, t, w.calls[t], c).value);
    case RemovingSb(sid, listed, next, pc) => RemoveSbNames(w, t, sid, listed, next, pc, c);
  }

  /** A step that leaves the sandbox index and the place of every sandbox alone. */
  ghost predicate SbNameQuiet(who: Option<Tid>, w: World, w2: World) {
    && w2.sbNames == w.sbNames && SameCallsBut(who, w, w2)
    && (forall x :: x in w.sbs ==>
          && x in w2.sbs && w2.sbs[x].name == w.sbs[x].name && w2.sbs[x].place == w.sbs[x].place
          && w2.sbs[x].creator == w.sbs[x].creator && w2.sbs[x].remover == w.sbs[x].remover)
    && (forall x :: x in w2.sbs && x !in w.sbs ==> w2.sbs[x].place == Building)
    && (who.Some? && who.value in w.calls ==> !w.calls[who.value].RunningSb? && !w.calls[who.value].RemovingSb?)
    && (who.Some? && who.value in w2.calls && w2.calls[who.value].RunningSb? ==> w2.calls[who.value].npc == RunReserve)
    && (who.Some? && who.value in w2.calls && w2.calls[who.value].Finished? ==>
          !w2.calls[who.value].out.SandboxRemoved?)
  }

  lemma SbQuietNames(who: Option<Tid>, w: World, w2: World)
    requires SbNamesOk(w) && SbNameQuiet(who, w, w2)
    ensures SbNamesOk(w2)
  {
    forall x | x in w2.sbNames.keyToName
      ensures SbNameHeld(w2, x)
    {
      assert SbNameHeld(w, x);
    }
  }

  // ------------------------------------------------------------ all steps

  lemma ContainerCallKind(w: World, t: Tid, call: Call, c: Choice)
    requires OnContainer(call) && call.id in w.objs && ContainerStep(w, t, call, c).Some?
    ensures var c2 := ContainerStep(w, t, call, c).value.call;
            !c2.RunningSb? && !(c2.Finished? && c2.out.SandboxRemoved?)
  {
  }

  lemma GoNames(w: World, t: Tid, c: Choice)
    requires ObjsOk(w) && CallsOk(w) && NamesOk(w) && SbNamesOk(w) && CallStep(w, t, c).Some?
    ensures NamesOk(CallStep(w, t, c).value) && SbNamesOk(CallStep(w, t, c).value)
  {
    hide ObjsOk, CallsOk, NamesOk, SbNamesOk, ContainerStep, SandboxStep;
    var w2 := CallStep(w, t, c).value;
    var call := w.calls[t];
    if OnContainer(call) {
      ContainerNames(w, t, c);
      ContainerCallKind(w, t, call, c);
      SbQuietNames(Some(t), w, w2);
    } else {
      SandboxNames(w, t, c);
      SandboxCallKind(w, t, call, c);
      QuietNames(Some(t), w, w2);
    }
  }

  lemma BeginQuiet(w: World, t: Tid, req: Request)
    requires BeginStep(w, t, req).Some?
    ensures NameQuiet(Some(t), w, BeginStep(w, t, req).value)
  {
  }

  lemma BeginSbQuiet(w: World, t: Tid, req: Request)
    requires BeginStep(w, t, req).Some?
    ensures SbNameQuiet(Some(t), w, BeginStep(w, t, req).value)
  {
  }

  lemma BeginNames(w: World, t: Tid, req: Request)
    requires NamesOk(w) && SbNamesOk(w) && BeginStep(w, t, req).Some?
    ensures NamesOk(BeginStep(w, t, req).value) && SbNamesOk(BeginStep(w, t, req).value)
  {
    hide NamesOk, SbNamesOk, NameQuiet, SbNameQuiet, BeginStep;
    var w2 := BeginStep(w, t, req).value;
    BeginQuiet(w, t, req);
    BeginSbQuiet(w, t, req);
    QuietNames(Some(t), w, w2);
    SbQuietNames(Some(t), w, w2);
  }

  lemma HandleKeepsPlace(o: Obj, m: Monitor, c: Choice)
    requires (m.Found? || m.Matched? || m.Deleted?) && HandleStep(o, m, c).Some?
    ensures var o2 := HandleStep(o, m, c).value.obj;
            o2.name == o.name && o2.place == o.place && o2.creator == o.creator && o2.remover == o.remover
  {
  }

  lemma MonitorQuiet(w: World, c: Choice)
    requires MonitorStep(w, c).Some?
    ensures NameQuiet(None, w, MonitorStep(w, c).value) && SbNameQuiet(None, w, MonitorStep(w, c).value)
  {
    MonitorTouches(w, c);
    hide MonitorStep;
  }

  /** A container as the index sees it. */
  predicate SameHolder(o: Obj, o2: Obj) {
    o2.name == o.name && o2.place == o.place && o2.creator == o.creator && o2.remover == o.remover
  }

  lemma MonitorTouches(w: World, c: Choice)
    requires MonitorStep(w, c).Some?
    ensures var w2 := MonitorStep(w, c).value;
      && w2.calls == w.calls && w2.names == w.names && w2.sbs == w.sbs && w2.sbNames == w.sbNames
      && w2.objs.Keys == w.objs.Keys && forall x :: x in w.objs ==> SameHolder(w.objs[x], w2.objs[x])
  {
    if Handling(w) && !w.monitor.Got? {
      HandleKeepsPlace(w.objs[w.monitor.ev.id], w.monitor, c);
    }
    hide HandleStep;
  }

  lemma MonitorNames(w: World, c: Choice)
    requires NamesOk(w) && SbNamesOk(w) && MonitorStep(w, c).Some?
    ensures NamesOk(MonitorStep(w, c).value) && SbNamesOk(MonitorStep(w, c).value)
  {
    hide NamesOk, SbNamesOk, NameQuiet, SbNameQuiet, MonitorStep;
    var w2 := MonitorStep(w, c).value;
    MonitorQuiet(w, c);
    QuietNames(None, w, w2);
    SbQuietNames(None, w, w2);
  }

  lemma EnvNames(w: World, a: Action)
    requires NamesOk(w) && SbNamesOk(w) && (a.TaskExits? || a.OtherExits? || a.Oom? || a.SandboxExits?)
    requires EnvStep(w, a).Some?
    ensures NamesOk(EnvStep(w, a).value) && SbNamesOk(EnvStep(w, a).value)
  {
    hide NamesOk, SbNamesOk, NameQuiet, SbNameQuiet, EnvStep;
    EnvQuiet(w, a);
    QuietNames(None, w, EnvStep(w, a).value);
    SbQuietNames(None, w, EnvStep(w, a).value);
  }

  lemma EnvQuiet(w: World, a: Action)
    requires (a.TaskExits? || a.OtherExits? || a.Oom? || a.SandboxExits?) && EnvStep(w, a).Some?
    ensures NameQuiet(None, w, EnvStep(w, a).value) && SbNameQuiet(None, w, EnvStep(w, a).value)
  {
  }

  /** Every step keeps the name indexes in agreement with the stores. */
  lemma NamesKept(w: World, a: Action)
    requires ObjsOk(w) && CallsOk(w) && NamesOk(w) && SbNamesOk(w) && Next(w, a).Some?
    ensures NamesOk(Next(w, a).value) && SbNamesOk(Next(w, a).value)
  {
    hide ObjsOk, CallsOk, NamesOk, SbNamesOk, BeginStep, CallStep, MonitorStep, EnvStep;
    match a
    case Begin(t, req) => BeginNames(w, t, req);
    case Go(t, c) => GoNames(w, t, c);
    case MonitorGo(c) => MonitorNames(w, c);
    case TaskExits(_, _, _) => EnvNames(w, a);
    case OtherExits(_, _, _, _) => EnvNames(w, a);
    case Oom(_) => EnvNames(w, a);
    case SandboxExits(_) => EnvNames(w, a);
  }
}
