/** The loop of RemovePodSandbox: how far it has come, and when it comes to its end. */
module RemovalLoop {
  import opened Wrappers
  import opened ContainerStatus
  import opened Service
  import opened HandlerSteps
  import opened ContainerdApi

  /** Every container of the sandbox can be removed. */
  ghost predicate AllRemovable(v: View, sid: Id, containers: Id -> RemoveFate) {
    forall id :: id in v.entries && v.entries[id].sandbox == sid ==>
      id in v.statuses && Removable(v.statuses[id], containers(id))
  }

  /** The first `n` containers of the list that belong to the sandbox can be removed. */
  ghost predicate RemovableUpTo(v: View, list: seq<Container>, n: nat, sid: Id, containers: Id -> RemoveFate) {
    forall i :: 0 <= i < n && i < |list| && list[i].sandbox == sid ==>
      list[i].id in v.statuses && Removable(v.statuses[list[i].id], containers(list[i].id))
  }

  lemma RemovableAll(v: View, list: seq<Container>, sid: Id, containers: Id -> RemoveFate)
    requires Listing(list, v.entries)
    ensures RemovableUpTo(v, list, |list|, sid, containers) <==> AllRemovable(v, sid, containers)
  {
    hide Removable;
    if RemovableUpTo(v, list, |list|, sid, containers) {
      forall id | id in v.entries && v.entries[id].sandbox == sid
        ensures id in v.statuses && Removable(v.statuses[id], containers(id))
      {
        var i :| 0 <= i < |list| && list[i] == v.entries[id];
      }
    }
  }

  lemma RemovableNext(v: View, list: seq<Container>, n: nat, sid: Id, containers: Id -> RemoveFate)
    requires Listing(list, v.entries) && n < |list| && RemovableUpTo(v, list, n, sid, containers)
    ensures list[n].sandbox != sid ==> RemovableUpTo(v, list, n + 1, sid, containers)
    ensures list[n].sandbox == sid && list[n].id in v.statuses ==>
      if Removable(v.statuses[list[n].id], containers(list[n].id)) then RemovableUpTo(v, list, n + 1, sid, containers)
      else !AllRemovable(v, sid, containers)
  {
    hide Removable;
  }

  /**
  What the containers of the sandbox have left: nothing if they are gone, all if
  they were not reached, and what the deletions left of `bad`, the one whose removal failed.
  */
  ghost predicate Leftovers(v0: View, v: View, sid: Id, containers: Id -> RemoveFate, bad: Option<Id>) {
    && (bad.Some? ==> bad.value in v0.statuses && !Removable(v0.statuses[bad.value], containers(bad.value)))
    && (forall id :: id in v0.entries && v0.entries[id].sandbox == sid ==>
          && id in v0.res && id in v.res
          && (id !in v.entries ==> v.res[id] == v0.res[id].(snapshot := false, rootDir := false, ctr := false))
          && (id in v.entries && bad != Some(id) ==> v.res[id] == v0.res[id])
          && (id in v.entries && bad == Some(id) && id in v0.statuses ==>
                v.res[id] == AfterTry(v0.statuses[id], containers(id), v0.res[id])))
  }

  lemma LeftoversNone(v0: View, sid: Id, containers: Id -> RemoveFate)
    requires ConsistentEntries(v0.entries, v0.res)
    ensures Leftovers(v0, v0, sid, containers, None)
  {
  }

  lemma RemovedLeavesNothing(st: Status, f: RemoveFate, res: Resources)
    requires Removable(st, f)
    ensures AfterTry(st, f, res) == res.(snapshot := false, rootDir := false, ctr := false)
  {
  }

  lemma LeftoversNext(v0: View, v: View, v2: View, sid: Id, containers: Id -> RemoveFate, id: Id, ok: bool)
    requires Leftovers(v0, v, sid, containers, None) && id in v.entries && id in v0.entries && id in v0.statuses
    requires v0.entries[id].sandbox == sid && (ok <==> Removable(v0.statuses[id], containers(id)))
    requires v2.entries == if ok then v.entries - {id} else v.entries
    requires v2.res.Keys == v.res.Keys && id in v.res && (forall x :: x in v.res && x != id ==> v2.res[x] == v.res[x])
    requires v2.res[id] == AfterTry(v0.statuses[id], containers(id), v.res[id])
    ensures Leftovers(v0, v2, sid, containers, if ok then None else Some(id))
  {
    if ok {
      RemovedLeavesNothing(v0.statuses[id], containers(id), v.res[id]);
    }
    hide AfterTry, Removable;
    assert forall x :: x in v2.res <==> x in v.res by {
      assert forall x :: x in v2.res.Keys <==> x in v.res.Keys;
    }
  }

  /** Call `t` has done `n` turns of the loop over `list`, and the view has come from `v0` to `v`. */
  ghost predicate InLoop(reach: World -> bool, t: Tid, w: World, sid: Id, list: seq<Container>, n: nat,
                         v0: View, v: View, containers: Id -> RemoveFate) {
    && At(reach, t, w, RemovingSb(sid, Ids(list), n, RsLoop)) && sid in w.sbs
    && Depicts(w, v) && CulledView(v0, sid, v)
    && Progress(v0.entries, list, n, sid, v.entries) && RemovableUpTo(v0, list, n, sid, containers)
    && Leftovers(v0, v, sid, containers, None)
  }

  lemma LoopStart(reach: World -> bool, t: Tid, w: World, sid: Id, list: seq<Container>,
                  v0: View, containers: Id -> RemoveFate)
    requires At(reach, t, w, RemovingSb(sid, Ids(list), 0, RsLoop)) && sid in w.sbs && Depicts(w, v0)
    requires Listing(list, v0.entries) && ConsistentEntries(v0.entries, v0.res)
    ensures InLoop(reach, t, w, sid, list, 0, v0, v0, containers)
  {
    assert forall id :: id in v0.entries ==> Alike(v0, id, w.objs[id]);
    CulledViewNone(v0, sid);
    LeftoversNone(v0, sid, containers);
    hide Depicts, CulledView, ConsistentEntries, At, Leftovers;
  }

  lemma LoopDone(reach: World -> bool, t: Tid, w: World, sid: Id, list: seq<Container>,
                 v0: View, v: View, containers: Id -> RemoveFate)
    requires InLoop(reach, t, w, sid, list, |list|, v0, v, containers) && Listing(list, v0.entries)
    ensures AllRemovable(v0, sid, containers) && Depicts(w, v) && CulledView(v0, sid, v)
    ensures Leftovers(v0, v, sid, containers, None)
  {
    RemovableAll(v0, list, sid, containers);
    hide AllRemovable, Depicts, CulledView, RemovableUpTo, At, Progress, Listing, Leftovers;
  }
}
