/**
 * What a request, or a run of requests from one browser, does to the store
 * and to the response, stated over `Middleware.Serve`.
 */
module Properties {
  import opened Wrappers
  import opened SessionStore
  import opened Sessions
  import opened ResponseStart
  import opened CounterApp
  import opened Middleware

  /** A request without a cookie starts a session under the fresh identifier and sets the cookie to it. */
  lemma NoCookieStartsFresh(cookieKey: string, sessions: map<Id, Data<int>>, path: string, freshId: Id)
    ensures var o := Serve(AppEnvKey, cookieKey, sessions, None, path, freshId);
            && freshId in o.sessions
            && o.sessions[freshId] == CountVisit(map[], path)
            && o.sessions == sessions[freshId := CountVisit(map[], path)]
            && o.started == Some(Start(OkStatus, [ContentType, CookieHeader(cookieKey, freshId)]))
  {
  }

  /** A cookie naming no stored session is handled exactly like no cookie at all. */
  lemma UnknownCookieActsAsNoCookie(envKey: string, cookieKey: string, sessions: map<Id, Data<int>>,
                                    id: Id, path: string, freshId: Id)
    requires id !in sessions
    ensures Serve(envKey, cookieKey, sessions, Some(id), path, freshId)
         == Serve(envKey, cookieKey, sessions, None, path, freshId)
  {
  }

  /**
   * A cookie naming a stored session resumes exactly the data last saved
   * under it, keeps the identifier, and touches no other session; the
   * generator's value plays no part.
   */
  lemma KnownCookieResumes(cookieKey: string, sessions: map<Id, Data<int>>, id: Id, path: string, freshId: Id)
    requires id in sessions
    ensures var o := Serve(AppEnvKey, cookieKey, sessions, Some(id), path, freshId);
            && o.sessions == sessions[id := CountVisit(sessions[id], path)]
            && o.sessions.Keys == sessions.Keys
            && o.started == Some(Start(OkStatus, [ContentType, CookieHeader(cookieKey, id)]))
            && o == Serve(AppEnvKey, cookieKey, sessions, Some(id), path, id)
  {
  }

  /**
   * Whenever the response is started, its headers are the application's
   * one header followed by exactly one cookie header, and that cookie
   * carries the identifier the session was just saved under.
   */
  lemma CookieMatchesSavedId(envKey: string, cookieKey: string, sessions: map<Id, Data<int>>,
                             cookie: Option<Id>, path: string, freshId: Id)
    ensures var o := Serve(envKey, cookieKey, sessions, cookie, path, freshId);
            var (id, data) := Resolve(sessions, cookie, freshId);
            o.started.Some? ==>
              && o.started.value.headers == [ContentType, CookieHeader(cookieKey, id)]
              && id in o.sessions
              && o.sessions == sessions[id := o.sessions[id]]
  {
  }

  /** A favicon request replaying a stored session leaves the store exactly as it was. */
  lemma FaviconKeepsStore(envKey: string, cookieKey: string, sessions: map<Id, Data<int>>, id: Id, freshId: Id)
    requires id in sessions
    ensures Serve(envKey, cookieKey, sessions, Some(id), Favicon, freshId).sessions == sessions
  {
  }

  /**
   * A favicon request without a stored session saves an empty session and
   * then fails, because the greeting reads a counter that is not there.
   */
  lemma FaviconWithoutSessionFails(cookieKey: string, sessions: map<Id, Data<int>>, freshId: Id)
    ensures Serve(AppEnvKey, cookieKey, sessions, None, Favicon, freshId)
         == Outcome(sessions[freshId := map[]],
                    Some(Start(OkStatus, [ContentType, CookieHeader(cookieKey, freshId)])),
                    Err(MissingCounter))
  {
  }

  /** Every key of the store has the shape of an issued identifier. */
  ghost predicate AllTokens(sessions: map<Id, Data<int>>)
  {
    forall id :: id in sessions ==> IsToken(id)
  }

  /**
   * When the generator issues identifiers of the usual shape, every
   * persisted session keeps a non-empty identifier of that shape, whatever
   * cookie the request carried.
   */
  lemma ServeKeepsTokenKeys(envKey: string, cookieKey: string, sessions: map<Id, Data<int>>,
                            cookie: Option<Id>, path: string, freshId: Id)
    requires AllTokens(sessions) && IsToken(freshId)
    ensures AllTokens(Serve(envKey, cookieKey, sessions, cookie, path, freshId).sessions)
    ensures forall id :: id in Serve(envKey, cookieKey, sessions, cookie, path, freshId).sessions ==> |id| > 0
  {
  }

  /** The number of requests among `paths` that count as a visit. */
  function Visits(paths: seq<string>): (n: nat)
  {
    if paths == [] then 0 else (if paths[0] != Favicon then 1 else 0) + Visits(paths[1..])
  }

  /**
   * The store after one browser holding the cookie `id` of a stored session
   * requests `paths` in order with the default configuration. The store
   * keeps the same identifiers and every other session is untouched.
   */
  function Revisit(sessions: map<Id, Data<int>>, id: Id, paths: seq<string>, freshId: Id): (r: map<Id, Data<int>>)
    requires id in sessions
    ensures r.Keys == sessions.Keys
    ensures forall other :: other in sessions && other != id ==> r[other] == sessions[other]
    decreases |paths|
  {
    if paths == [] then sessions
    else Revisit(Serve(DefaultEnvKey, DefaultCookieKey, sessions, Some(id), paths[0], freshId).sessions,
                 id, paths[1..], freshId)
  }

  /** The stored counter grows by exactly the number of requests that are not for the favicon. */
  lemma {:induction false} VisitCount(sessions: map<Id, Data<int>>, id: Id, paths: seq<string>, freshId: Id)
    requires id in sessions
    ensures CounterOr0(Revisit(sessions, id, paths, freshId)[id]) == CounterOr0(sessions[id]) + Visits(paths)
  {
    if paths != [] {
      var next := Serve(DefaultEnvKey, DefaultCookieKey, sessions, Some(id), paths[0], freshId).sessions;
      assert next[id] == CountVisit(sessions[id], paths[0]);
      VisitCount(next, id, paths[1..], freshId);
    }
  }

  /** A first visit to `/` without a cookie: one session with counter 1, and the welcome. */
  lemma FirstVisit(freshId: Id)
    ensures Serve(DefaultEnvKey, DefaultCookieKey, map[], None, "/", freshId)
         == Outcome(map[freshId := map[CounterKey := 1]],
                    Some(Start(OkStatus, [ContentType, (SetCookie, "session_id=" + freshId + "; Path=/")])),
                    Ok(Welcome))
  {
    assert "/" != Favicon;
    assert CookieString(DefaultCookieKey, freshId) == "session_id=" + freshId + "; Path=/";
  }

  /** The second visit to `/` replaying the issued cookie: counter 2, reported in the body. */
  lemma SecondVisit(freshId: Id, unusedId: Id)
    ensures var first := Serve(DefaultEnvKey, DefaultCookieKey, map[], None, "/", freshId);
            var second := Serve(DefaultEnvKey, DefaultCookieKey, first.sessions, Some(freshId), "/", unusedId);
            && second.sessions == map[freshId := map[CounterKey := 2]]
            && second.body == Ok("Hello Again!\nYou Visited 2 times")
  {
    FirstVisit(freshId);
    assert "/" != Favicon;
    var counted := CountVisit(map[CounterKey := 1], "/");
    assert counted == map[CounterKey := 2];
    assert Greeting(2) == AgainPrefix + Decimal(2) + AgainSuffix;
    assert Decimal(2) == "2";
    assert AgainPrefix + "2" + AgainSuffix == "Hello Again!\nYou Visited 2 times";
  }
}
