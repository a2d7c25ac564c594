/**
The in-memory stores (pkg/store/container/container.go and
pkg/store/sandbox/sandbox.go): one map from id to entry each, updated in place.
*/
module Stores {
  import opened Wrappers

  class Store<T> {
    var entries: map<string, T>

    constructor ()
      ensures entries == map[]
    {
      entries := map[];
    }

    /** An entry is never overwritten. */
    method Add(id: string, entry: T) returns (r: Result<()>)
      modifies this
      ensures r.Ok? <==> id !in old(entries)
      ensures entries == if r.Ok? then old(entries)[id := entry] else old(entries)
    {
      if id in entries {
        return Err("already exist");
      }
      entries := entries[id := entry];
      return Ok(());
    }

    method Get(id: string) returns (r: Option<T>)
      ensures r == if id in entries then Some(entries[id]) else None
    {
      if id in entries {
        return Some(entries[id]);
      }
      return None;
    }

    /** Every entry once, in an order that is not specified. */
    method List() returns (list: seq<(string, T)>)
      ensures forall i :: 0 <= i < |list| ==> list[i].0 in entries && list[i].1 == entries[list[i].0]
      ensures forall i, j :: 0 <= i < j < |list| ==> list[i].0 != list[j].0
      ensures entries.Keys == set i | 0 <= i < |list| :: list[i].0
    {
      list := [];
      ghost var order: seq<string> := [];
      var left := entries.Keys;
      while left != {}
        invariant left <= entries.Keys
        invariant |list| == |order| && forall i :: 0 <= i < |list| ==>
          list[i].0 == order[i] && order[i] in entries && list[i].1 == entries[order[i]]
        invariant forall i :: 0 <= i < |order| ==> order[i] !in left
        invariant forall i, j :: 0 <= i < j < |order| ==> order[i] != order[j]
        invariant forall id :: id in entries ==> id in left || id in order
        decreases |left|
      {
        var id :| id in left;
        left := left - {id};
        list, order := list + [(id, entries[id])], order + [id];
      }
      forall id | id in entries
        ensures id in set i | 0 <= i < |list| :: list[i].0
      {
        var i :| 0 <= i < |order| && order[i] == id;
        assert list[i].0 == id;
      }
    }

    method Delete(id: string)
      modifies this
      ensures entries == old(entries) - {id}
    {
      entries := entries - {id};
    }
  }
}
