/**
 The version-guarded cache of API objects and the workers in front of it: an object is
 synced only if nothing newer of the same name was seen.
 */
module ObjectStores {

  /** A resource version as it parses: a number, or not one. */
  datatype Version = Number(value: int) | NotANumber

  datatype Object = Object(key: string, version: Version, payload: string)

  datatype Verdict = Stored | Old | ParseError

  type Store = map<string, Object>

  function Judge(store: Store, obj: Object): Verdict {
    if obj.key !in store then Stored
    else if obj.version.NotANumber? || store[obj.key].version.NotANumber? then ParseError
    else if store[obj.key].version.value > obj.version.value then Old
    else Stored
  }

  function Updated(store: Store, obj: Object): Store {
    if Judge(store, obj).Stored? then store[obj.key := obj] else store
  }

  class Cache {
    var objects: Store
    // Objects whose sync body was run, in order, each with the store it ran under.
    ghost var synced: seq<(Object, Store)>

    constructor ()
      ensures objects == map[] && synced == []
    {
      objects, synced := map[], [];
    }

    /** No sync body ran on an object other than the one stored at that moment. */
    ghost predicate Valid()
      reads this
    {
      forall e <- synced :: e.0.key in e.1 && e.1[e.0.key] == e.0
    }

    method StoreObjectUpdate(obj: Object) returns (verdict: Verdict)
      modifies this`objects
      ensures verdict == Judge(old(objects), obj) && objects == Updated(old(objects), obj)
    {
      if obj.key !in objects {
        objects := objects[obj.key := obj];
        return Stored;
      }
      var oldObj := objects[obj.key];
      if obj.version.NotANumber? {
        return ParseError;
      }
      if oldObj.version.NotANumber? {
        return ParseError;
      }
      if oldObj.version.value > obj.version.value {
        return Old;
      }
      objects := objects[obj.key := obj];
      return Stored;
    }

    /** A worker takes an object that exists: it is synced unless it is refused. */
    method UpdateObject(obj: Object) returns (ran: bool)
      requires Valid()
      modifies this
      ensures Valid() && objects == Updated(old(objects), obj)
      ensures ran <==> Judge(old(objects), obj).Stored?
      ensures synced == old(synced) + if ran then [(obj, objects)] else []
    {
      var verdict := StoreObjectUpdate(obj);
      if verdict != Stored {
        return false;
      }
      synced := synced + [(obj, objects)];
      return true;
    }

    /** A worker finds that the object is gone. */
    method DeleteObject(key: string)
      requires Valid()
      modifies this
      ensures Valid() && objects == old(objects) - {key} && synced == old(synced)
    {
      objects := objects - {key};
    }
  }

  /** An object is refused over a stored one if either version cannot be read, or if the stored one is newer; it replaces it otherwise. */
  lemma RefusedIff(store: Store, obj: Object)
    ensures Updated(store, obj) == store || Updated(store, obj) == store[obj.key := obj]
    ensures Judge(store, obj).Stored? ==> obj.key in Updated(store, obj) && Updated(store, obj)[obj.key] == obj
    ensures !Judge(store, obj).Stored? ==> Updated(store, obj) == store
    ensures Judge(store, obj).ParseError?
            <==> obj.key in store && (obj.version == NotANumber || store[obj.key].version == NotANumber)
    ensures Judge(store, obj).Old?
            <==> obj.key in store && obj.version.Number? && store[obj.key].version.Number?
                 && obj.version.value < store[obj.key].version.value
  {}

  // ---- Sequences of updates of one name ----

  /** The store after the updates, in order. */
  function After(store: Store, updates: seq<Object>): Store {
    if updates == [] then store else Updated(After(store, updates[..|updates| - 1]), updates[|updates| - 1])
  }

  /** What the i-th update is told. */
  function VerdictAt(store: Store, updates: seq<Object>, i: nat): Verdict
    requires i < |updates|
  {
    Judge(After(store, updates[..i]), updates[i])
  }

  /** Versions of one name, all of them numbers. */
  predicate Numbered(updates: seq<Object>, key: string) {
    forall o <- updates :: o.key == key && o.version.Number?
  }

  /** No update before the i-th has a higher version. */
  predicate ReachesMaximum(updates: seq<Object>, i: nat)
    requires i < |updates| && forall o <- updates :: o.version.Number?
  {
    forall j | 0 <= j < i :: updates[j].version.value <= updates[i].version.value
  }

  /**
   The stored object is the last update that reached the running maximum; in particular no update ever
   had a higher version.
   */
  lemma {:induction false} StoresTheLastMaximum(store: Store, updates: seq<Object>, key: string) returns (last: nat)
    requires key !in store && updates != [] && Numbered(updates, key)
    ensures last < |updates| && key in After(store, updates) && After(store, updates)[key] == updates[last]
    ensures ReachesMaximum(updates, last) && forall j | last < j < |updates| :: !ReachesMaximum(updates, j)
    ensures forall j | 0 <= j < |updates| :: updates[j].version.value <= updates[last].version.value
  {
    var m := |updates| - 1;
    if m == 0 {
      last := 0;
    } else {
      var before := updates[..m];
      assert forall o <- before :: o in updates;
      last := StoresTheLastMaximum(store, before, key);
      assert forall j | 0 <= j < m :: ReachesMaximum(before, j) == ReachesMaximum(updates, j);
      if updates[last].version.value <= updates[m].version.value {
        last := m;
      }
    }
  }

  /** An update is accepted exactly when it reaches the running maximum. */
  lemma AcceptedIffMaximum(store: Store, updates: seq<Object>, key: string, i: nat)
    requires key !in store && Numbered(updates, key) && i < |updates|
    ensures VerdictAt(store, updates, i) == if ReachesMaximum(updates, i) then Stored else Old
  {
    assert updates[i] in updates;
    if i == 0 {
      assert updates[..0] == [];
    } else {
      var before := updates[..i];
      assert forall o <- before :: o in updates;
      var last := StoresTheLastMaximum(store, before, key);
      assert before[last] == updates[last];
    }
  }
}
