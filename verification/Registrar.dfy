/**
The name index (pkg/registrar/registrar.go): a value with its three
operations, and the class that keeps it in two maps updated in place.
*/
module Registrar {
  import opened Wrappers

  /** Names to keys and keys back to names. */
  datatype Index = Index(nameToKey: map<string, string>, keyToName: map<string, string>)
  {
    /** Each map is the inverse of the other. */
    ghost predicate Inverse() {
      && (forall n :: n in nameToKey ==> nameToKey[n] in keyToName && keyToName[nameToKey[n]] == n)
      && (forall k :: k in keyToName ==> keyToName[k] in nameToKey && nameToKey[keyToName[k]] == k)
    }

    /** Would `Reserve(name, key)` return an error? */
    predicate Refuses(name: string, key: string) {
      || name == "" || key == ""
      || (name in nameToKey && nameToKey[name] != key)
      || (name !in nameToKey && key in keyToName && keyToName[key] != name)
    }

    function Reserve(name: string, key: string): Index {
      if Refuses(name, key) || name in nameToKey || key in keyToName then this
      else Index(nameToKey[name := key], keyToName[key := name])
    }

    function ReleaseByName(name: string): Index {
      if name in nameToKey then Index(nameToKey - {name}, keyToName - {nameToKey[name]}) else this
    }

    function ReleaseByKey(key: string): Index {
      if key in keyToName then Index(nameToKey - {keyToName[key]}, keyToName - {key}) else this
    }
  }

  const EMPTY := Index(map[], map[])

  /**
  Reserving keeps the maps inverse, is refused exactly on a blank or on a
  conflict, and otherwise leaves the pair in the index and every other pair alone.
  */
  lemma ReserveKeepsInverse(idx: Index, name: string, key: string)
    requires idx.Inverse()
    ensures idx.Reserve(name, key).Inverse()
    ensures idx.Refuses(name, key) <==>
      || name == "" || key == ""
      || ((name in idx.nameToKey || key in idx.keyToName) && (name, key) !in idx.nameToKey.Items)
    ensures !idx.Refuses(name, key) ==> (name, key) in idx.Reserve(name, key).nameToKey.Items
    ensures forall k :: k != key ==>
      (k in idx.keyToName <==> k in idx.Reserve(name, key).keyToName)
      && (k in idx.keyToName ==> idx.Reserve(name, key).keyToName[k] == idx.keyToName[k])
  {
    if name in idx.nameToKey && idx.nameToKey[name] == key {
      assert (name, key) in idx.nameToKey.Items;
    }
    if !idx.Refuses(name, key) {
      var r := idx.Reserve(name, key);
      assert name in r.nameToKey && r.nameToKey[name] == key;
      assert (name, key) in r.nameToKey.Items;
    }
  }

  /** Releasing, by either side, removes exactly one pair and keeps the maps inverse. */
  lemma ReleaseKeepsInverse(idx: Index, name: string, key: string)
    requires idx.Inverse()
    ensures idx.ReleaseByName(name).Inverse()
    ensures idx.ReleaseByKey(key).Inverse()
    ensures idx.ReleaseByName(name).nameToKey.Keys == idx.nameToKey.Keys - {name}
    ensures idx.ReleaseByKey(key).keyToName.Keys == idx.keyToName.Keys - {key}
    ensures name in idx.nameToKey ==> idx.ReleaseByName(name) == idx.ReleaseByKey(idx.nameToKey[name])
  {
  }

  /** A successful reservation of an unused pair is undone by either release. */
  lemma ReleaseUndoesReserve(idx: Index, name: string, key: string)
    requires idx.Inverse() && name != "" && key != ""
    requires name !in idx.nameToKey && key !in idx.keyToName
    ensures idx.Reserve(name, key).ReleaseByName(name) == idx
    ensures idx.Reserve(name, key).ReleaseByKey(key) == idx
  {
    var r := idx.Reserve(name, key);
    assert r.nameToKey - {name} == idx.nameToKey;
    assert r.keyToName - {key} == idx.keyToName;
  }

  class Registrar {
    var nameToKey: map<string, string>
    var keyToName: map<string, string>

    ghost function Contents(): Index
      reads this
    {
      Index(nameToKey, keyToName)
    }

    constructor ()
      ensures Contents() == EMPTY && Contents().Inverse()
    {
      nameToKey, keyToName := map[], map[];
    }

    method Reserve(name: string, key: string) returns (r: Result<()>)
      requires Contents().Inverse()
      modifies this
      ensures Contents() == old(Contents()).Reserve(name, key) && Contents().Inverse()
      ensures r.Err? <==> old(Contents()).Refuses(name, key)
    {
      ReserveKeepsInverse(Contents(), name, key);
      if name == "" || key == "" {
        return Err("invalid name or key");
      }
      if name in nameToKey {
        if nameToKey[name] != key {
          return Err("name is reserved");
        }
        return Ok(());
      }
      if key in keyToName {
        if keyToName[key] != name {
          return Err("key is reserved");
        }
        return Ok(());
      }
      nameToKey := nameToKey[name := key];
      keyToName := keyToName[key := name];
      return Ok(());
    }

    method ReleaseByName(name: string)
      requires Contents().Inverse()
      modifies this
      ensures Contents() == old(Contents()).ReleaseByName(name) && Contents().Inverse()
    {
      ReleaseKeepsInverse(Contents(), name, "");
      if name !in nameToKey {
        return;
      }
      var key := nameToKey[name];
      nameToKey := nameToKey - {name};
      keyToName := keyToName - {key};
    }

    method ReleaseByKey(key: string)
      requires Contents().Inverse()
      modifies this
      ensures Contents() == old(Contents()).ReleaseByKey(key) && Contents().Inverse()
    {
      ReleaseKeepsInverse(Contents(), "", key);
      if key !in keyToName {
        return;
      }
      var name := keyToName[key];
      nameToKey := nameToKey - {name};
      keyToName := keyToName - {key};
    }
  }
}
