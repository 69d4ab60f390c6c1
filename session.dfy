/**
 * A session bound to the store: it resolves an incoming identifier to
 * stored data or to a fresh, empty session, gives strict and defaulting
 * access to its keys, and writes its data back under its identifier.
 *
 * In the original, adopting stored data makes the session's dictionary the
 * very object held by the store, so later writes to the session are visible
 * in the store before `save`. Here maps are values: the store changes only
 * when `Save` runs. Since `Save` writes the session's current data, the
 * store after `Save` is the same in both.
 */
module Sessions {
  import opened Wrappers
  import opened SessionStore

  /** The failure of a strict key lookup. */
  datatype LookupError = KeyError(key: string)

  /**
   * The identifier and data a session starts with: the stored ones when the
   * incoming identifier is in the store, otherwise `freshId` and no data.
   */
  function Resolve<V>(sessions: map<Id, Data<V>>, incoming: Option<Id>, freshId: Id): (r: (Id, Data<V>))
  {
    if incoming.Some? && incoming.value in sessions then (incoming.value, sessions[incoming.value])
    else (freshId, map[])
  }

  class Session<V> {
    const store: DictStore<V>
    var data: Data<V>
    var id: Id

    /**
     * A session over `storage` for the identifier the request carried, if
     * any; `freshId` is what the identifier generator supplies in case a
     * new session is started. The store is not changed.
     */
    constructor (storage: DictStore<V>, incoming: Option<Id>, freshId: Id)
      ensures store == storage
      ensures incoming.Some? && incoming.value in storage.sessions ==>
                id == incoming.value && data == storage.sessions[incoming.value]
      ensures incoming.None? || incoming.value !in storage.sessions ==>
                id == freshId && data == map[]
      ensures (id, data) == Resolve(storage.sessions, incoming, freshId)
    {
      store := storage;
      data := map[];
      new;
      Load(incoming, freshId);
    }

    /** `session[key]`: fails with a key error when the key is absent. */
    method Lookup(key: string) returns (r: Result<V, LookupError>)
      ensures key in data ==> r == Ok(data[key])
      ensures key !in data ==> r == Err(KeyError(key))
    {
      if key in data {
        r := Ok(data[key]);
      } else {
        r := Err(KeyError(key));
      }
    }

    /** `session[key] = value`: only that key changes. */
    method Put(key: string, value: V)
      modifies this`data
      ensures data == old(data)[key := value]
      ensures key in data && data[key] == value
      ensures forall k :: k != key ==> (k in data <==> k in old(data))
      ensures forall k :: k != key && k in old(data) ==> data[k] == old(data)[k]
    {
      data := data[key := value];
    }

    /** `session.get(key, fallback)`: never fails. */
    method Get(key: string, fallback: V) returns (v: V)
      ensures key in data ==> v == data[key]
      ensures key !in data ==> v == fallback
    {
      if key in data {
        v := data[key];
      } else {
        v := fallback;
      }
    }

    /** `session.get(key)` with no default: `None` when the key is absent. */
    method GetOrNone(key: string) returns (r: Option<V>)
      ensures key in data ==> r == Some(data[key])
      ensures key !in data ==> r == None
    {
      if key in data {
        r := Some(data[key]);
      } else {
        r := None;
      }
    }

    /**
     * Adopts the stored data and identifier when `incoming` is in the store,
     * otherwise starts empty under `freshId`. Nothing checks that `freshId`
     * is not already in use. The store is not changed.
     */
    method Load(incoming: Option<Id>, freshId: Id)
      modifies this`data, this`id
      ensures incoming.Some? && incoming.value in store.sessions ==>
                id == incoming.value && data == store.sessions[incoming.value]
      ensures incoming.None? || incoming.value !in store.sessions ==>
                id == freshId && data == map[]
      ensures (id, data) == Resolve(store.sessions, incoming, freshId)
    {
      var found := false;
      if incoming.Some? {
        found := store.Contains(incoming.value);
      }
      if found {
        data := store.Get(incoming.value);
        id := incoming.value;
      } else {
        data := map[];
        id := freshId;
      }
    }

    /** Writes the data back under the session's identifier and returns that identifier. */
    method Save() returns (savedId: Id)
      modifies store
      ensures savedId == id
      ensures store.sessions == old(store.sessions)[id := data]
    {
      store.Set(id, data);
      savedId := id;
    }
  }

  /**
   * Loading an identifier the store holds and saving straight away, with no
   * change in between, leaves the store as it was and reissues the same
   * identifier, whatever the generator would have supplied.
   */
  method LoadThenSave<V>(store: DictStore<V>, id: Id, freshId: Id) returns (savedId: Id)
    requires id in store.sessions
    modifies store
    ensures savedId == id
    ensures store.sessions == old(store.sessions)
  {
    var session := new Session(store, Some(id), freshId);
    savedId := session.Save();
  }
}
