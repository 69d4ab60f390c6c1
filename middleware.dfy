/**
 * The session middleware wrapped around the counter application. A request
 * is reduced to what the middleware and the application read from it: the
 * session identifier extracted from its `Cookie` header, if any, and its
 * path. `Serve` states what one request does; `SessionMiddleware.Call` is
 * the step-by-step version and is proved to agree with it.
 */
module Middleware {
  import opened Wrappers
  import opened SessionStore
  import opened Sessions
  import opened ResponseStart
  import opened CounterApp

  const DefaultEnvKey := "wsgisession"
  const DefaultCookieKey := "session_id"

  /** What one request leaves behind: the store, the start call the server saw (if any) and the body or error. */
  datatype Outcome = Outcome(sessions: map<Id, Data<int>>, started: Option<Start>, body: Result<string, AppError>)

  /**
   * One request through the middleware and the counter application, with
   * the session attached under `envKey` and the cookie named `cookieKey`;
   * `freshId` is the value the identifier generator supplies. No request
   * removes a session, and the only identifier a request may add is
   * `freshId`; a body is only produced after the response was started.
   */
  function Serve(envKey: string, cookieKey: string, sessions: map<Id, Data<int>>,
                 cookie: Option<Id>, path: string, freshId: Id): (o: Outcome)
    ensures sessions.Keys <= o.sessions.Keys <= sessions.Keys + {freshId}
    ensures o.body.Ok? ==> o.started.Some?
  {
    var (id, data) := Resolve(sessions, cookie, freshId);
    var started := Some(Start(OkStatus, [ContentType, CookieHeader(cookieKey, id)]));
    if envKey != AppEnvKey then
      if path != Favicon then Outcome(sessions, None, Err(NoSession))
      else Outcome(sessions[id := data], started, Err(NoSession))
    else
      var counted := CountVisit(data, path);
      var body := if CounterKey in counted then Ok(Greeting(counted[CounterKey])) else Err(MissingCounter);
      Outcome(sessions[id := counted], started, body)
  }

  class SessionMiddleware {
    const store: DictStore<int>
    const envKey: string
    const cookieKey: string

    /**
     * The middleware over the process-wide `store`, attaching the session
     * under `envKey` and reading and writing the cookie `cookieKey`.
     */
    constructor (store: DictStore<int>, envKey: string := DefaultEnvKey, cookieKey: string := DefaultCookieKey)
      ensures this.store == store && this.envKey == envKey && this.cookieKey == cookieKey
    {
      this.store := store;
      this.envKey := envKey;
      this.cookieKey := cookieKey;
    }

    /**
     * Handles one request: builds the session for the incoming identifier,
     * runs the application with the session visible to it exactly when it
     * is attached under the application's key, and lets the hook save the
     * session when the response starts.
     */
    method Call(cookie: Option<Id>, path: string, freshId: Id)
      returns (started: Option<Start>, body: Result<string, AppError>)
      modifies store
      ensures Outcome(store.sessions, started, body) == Serve(envKey, cookieKey, old(store.sessions), cookie, path, freshId)
    {
      var session := new Session(store, cookie, freshId);
      var hook := new Hook(session, cookieKey);
      var visible: Session?<int> := if envKey == AppEnvKey then session else null;
      started, body := WrappedApp(visible, path, hook);
    }
  }
}
