/**
 * The reference session store: one process-wide dictionary from session
 * identifier to session data. In the original the dictionary is a class
 * attribute, so every store object shares it; here one `DictStore` object
 * stands for that single dictionary and is handed to whoever uses it.
 */
module SessionStore {

  /** A session identifier, as carried by the session cookie. */
  type Id = string

  /** The data of one session: a dictionary from key to value. */
  type Data<V> = map<string, V>

  const HexDigits := "0123456789abcdef"

  /** The shape of a freshly issued identifier: 32 lower-case hexadecimal digits. */
  predicate IsToken(id: Id) {
    |id| == 32 && forall i :: 0 <= i < |id| ==> id[i] in HexDigits
  }

  class DictStore<V> {
    var sessions: map<Id, Data<V>>

    /** The dictionary as it is when the process starts: empty. */
    constructor ()
      ensures sessions == map[]
    {
      sessions := map[];
    }

    /** `store[id] = data`: the entry for `id` becomes `data`, every other entry stays. */
    method Set(id: Id, data: Data<V>)
      modifies this
      ensures sessions == old(sessions)[id := data]
      ensures id in sessions && sessions[id] == data
      ensures forall other :: other != id ==> (other in sessions <==> other in old(sessions))
      ensures forall other :: other != id && other in old(sessions) ==> sessions[other] == old(sessions)[other]
    {
      sessions := sessions[id := data];
    }

    /** `store[id]`: only defined for an identifier the store contains. */
    method Get(id: Id) returns (data: Data<V>)
      requires id in sessions
      ensures data == sessions[id]
    {
      data := sessions[id];
    }

    /** `id in store`. */
    method Contains(id: Id) returns (present: bool)
      ensures present <==> id in sessions
    {
      present := id in sessions;
    }
  }
}
