/**
 * The response-start hook the middleware hands to the application: when the
 * application starts its response, the hook saves the session, appends one
 * `Set-Cookie` header carrying the saved identifier, and forwards the call
 * to the server.
 */
module ResponseStart {
  import opened SessionStore
  import opened Sessions

  /** One response header: name and value. */
  type Header = (string, string)

  /** A response-start call as the server receives it: status line and headers. */
  datatype Start = Start(status: string, headers: seq<Header>)

  const SetCookie := "Set-Cookie"

  /** The cookie the middleware sets: `<key>=<id>; Path=/`. */
  function CookieString(key: string, id: Id): (cookie: string)
  {
    key + "=" + id + "; Path=/"
  }

  /** The cookie string determines the identifier it carries. */
  lemma CookieStringInjective(key: string, a: Id, b: Id)
    requires CookieString(key, a) == CookieString(key, b)
    ensures a == b
  {
    var sa, sb := CookieString(key, a), CookieString(key, b);
    assert |a| == |b|;
    assert sa[|key| + 1 .. |key| + 1 + |a|] == a;
    assert sb[|key| + 1 .. |key| + 1 + |b|] == b;
  }

  /** The header appended for the session with identifier `id`. */
  function CookieHeader(key: string, id: Id): (h: Header)
  {
    (SetCookie, CookieString(key, id))
  }

  /** The closure `middleware_start_response`: it captures the session and the cookie name. */
  class Hook<V> {
    const session: Session<V>
    const cookieKey: string

    constructor (session: Session<V>, cookieKey: string)
      ensures this.session == session && this.cookieKey == cookieKey
    {
      this.session := session;
      this.cookieKey := cookieKey;
    }

    /**
     * Saves the session, then forwards `status` with the application's
     * headers, in order, followed by exactly one cookie header built from
     * the identifier just saved under.
     */
    method Call(status: string, headers: seq<Header>) returns (forwarded: Start)
      modifies session.store
      ensures session.store.sessions == old(session.store.sessions)[session.id := session.data]
      ensures forwarded == Start(status, headers + [CookieHeader(cookieKey, session.id)])
    {
      var savedId := session.Save();
      forwarded := Start(status, headers + [CookieHeader(cookieKey, savedId)]);
    }
  }
}
