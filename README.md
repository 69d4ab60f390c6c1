# Session middleware, modelled in Dafny

This project models the session lifecycle of a small WSGI example
application (`examples/sessions/app_example.py`): a process-wide session
store keyed by identifier, a session object that resolves an incoming
identifier to stored data or to a fresh empty session, the response-start
hook that saves the session and sets the `session_id` cookie, and the
example application that counts visits. It then proves what these promise.

Layout, one module per component:

- `wrappers.dfy`, module `Wrappers`: `Option` and `Result`.
- `store.dfy`, module `SessionStore`: class `DictStore` over a `map<Id, Data<V>>` field.
- `session.dfy`, module `Sessions`: class `Session` (load, save, strict and defaulting access, key update).
- `response_start.dfy`, module `ResponseStart`: the `middleware_start_response` closure as class `Hook`, and the cookie string.
- `counter_app.dfy`, module `CounterApp`: the counter rule, the greeting and `wrapped_app` as method `WrappedApp`.
- `middleware.dfy`, module `Middleware`: `Serve`, a function saying what one request does, and class `SessionMiddleware`, whose `Call` is proved equal to it.
- `properties.dfy`, module `Properties`: lemmas about `Serve`, including runs of several requests.

Modelling decisions:

- A request is reduced to the identifier taken from its `Cookie` header (an `Option<Id>`) and its path.
- The value `uuid.uuid4().hex` would produce is passed in as `freshId`. Nothing assumes it is new to the store.
- The original dictionary is a class attribute, so it is shared by all store objects. One `DictStore` object, given to the middleware's constructor, plays that role.
- After loading a stored identifier, the original session's dictionary is the same object as the stored entry. Here maps are values and the store changes only in `Save`. Whenever the application has a session, it starts its response, which saves, after its last write to the session. Without a session it writes nothing. So the final store is the same in both.
- The application stores only integers, so the middleware and the application fix the value type to `int`. The store and the session are generic.
- The environ mapping is reduced to one question: the application sees the session exactly when the middleware's `envKey` is `wsgisession`. Otherwise `environ.get` returns `None` and the application fails (`NoSession`).
- The strict store `Get` requires that the identifier is present. Its only caller, `Load`, checks first. The strict session lookup `Lookup` returns a `Result` instead, because the application can reach the missing case: a first request for `/favicon.ico` saves an empty session and then fails at line 113 (`FaviconWithoutSessionFails`).
- The store contract in the source has one more failure mode, no concurrency control. It is out of scope (see below).

## Model

| member | source | states |
|---|---|---|
| `SessionStore.DictStore.constructor` | examples/sessions/app_example.py:14 | the process-wide dictionary starts empty |
| `SessionStore.DictStore.Set` | examples/sessions/app_example.py:16-17 | afterwards `id` is present with exactly `data`; every other identifier keeps its presence and its entry |
| `SessionStore.DictStore.Get` | examples/sessions/app_example.py:19-20 | defined only for a present identifier; returns its entry |
| `SessionStore.DictStore.Contains` | examples/sessions/app_example.py:22-23 | true exactly when the identifier is in the store |
| `Sessions.Session.constructor` | examples/sessions/app_example.py:28-31 | binds the session to the store and loads: stored identifier and data if the incoming identifier is stored, otherwise the fresh identifier and no data, which is the load decision `Resolve` that `Serve` uses; the store is not changed |
| `Sessions.Session.Lookup` | examples/sessions/app_example.py:33-34 | the key's value when present, a key error when absent |
| `Sessions.Session.Put` | examples/sessions/app_example.py:36-37 | the key now holds the value; no other key changes |
| `Sessions.Session.Get` | examples/sessions/app_example.py:39-43 | never fails: the key's value when present, the fallback otherwise |
| `Sessions.Session.GetOrNone` | examples/sessions/app_example.py:39-43 | `get` without a default: `Some` of the key's value when present, `None` otherwise |
| `Sessions.Session.Load` | examples/sessions/app_example.py:45-55 | both outcomes of loading: adopt the stored identifier and data, or start empty under the generated identifier (missing and unknown identifiers alike), which is `Resolve`; the store is not changed |
| `Sessions.Session.Save` | examples/sessions/app_example.py:57-59 | the store maps the session's identifier to its data, all else unchanged; returns that identifier |
| `Sessions.LoadThenSave` | examples/sessions/app_example.py:45-59 | loading a stored identifier and saving without change leaves the store unchanged and returns the same identifier |
| `ResponseStart.CookieStringInjective` | examples/sessions/app_example.py:92-95 | two cookie strings for the same cookie name are equal only when they carry the same identifier |
| `ResponseStart.Hook.constructor` | examples/sessions/app_example.py:89 | the hook captures the request's session and the cookie name |
| `ResponseStart.Hook.Call` | examples/sessions/app_example.py:89-97 | saves the session, then forwards the status and the application's headers in order, followed by exactly one `Set-Cookie` header built from the saved identifier |
| `CounterApp.CountVisit` | examples/sessions/app_example.py:107-109 | off the favicon path the counter becomes its old value (default 0) plus one, with the other keys kept; on the favicon path nothing changes |
| `CounterApp.Decimal` | examples/sessions/app_example.py:114-115 | the formatted counter is a non-empty string of decimal digits with no leading zero for a positive number |
| `CounterApp.DecimalRoundTrip` | examples/sessions/app_example.py:114-115 | the decimal text of the counter reads back as the counter |
| `CounterApp.Greeting` | examples/sessions/app_example.py:113-117 | the welcome exactly when the counter is at most 1; otherwise the "Hello Again!" text, whose number is written in decimal digits, has no leading zero and reads back as the counter, so it is the canonical decimal of the counter |
| `CounterApp.WrappedApp` | examples/sessions/app_example.py:102-119 | counts the visit, starts the response through the hook (saving the counted data and adding the cookie), then greets by the counter or fails on a missing counter; without a session it fails, and starts the response first only on the favicon path |
| `Middleware.Serve` | examples/sessions/app_example.py:77-117 | one request never removes a session, adds at most the generated identifier, and produces a body only after the response was started |
| `Middleware.SessionMiddleware.constructor` | examples/sessions/app_example.py:70-75 | the middleware keeps the store object it is given (not a store factory), the environ key and the cookie name, defaulting to `wsgisession` and `session_id`; it takes no application, since the counter application is the one it wraps |
| `Middleware.SessionMiddleware.Call` | examples/sessions/app_example.py:77-99 | the new store, the forwarded start call and the body are exactly those of `Serve` for the old store |
| `Properties.NoCookieStartsFresh` | examples/sessions/app_example.py:82-96 | with no cookie, the data is saved under the generated identifier and the cookie carries it |
| `Properties.UnknownCookieActsAsNoCookie` | examples/sessions/app_example.py:50-55 | an identifier absent from the store behaves exactly as no identifier |
| `Properties.KnownCookieResumes` | examples/sessions/app_example.py:50-52 | a stored identifier resumes exactly its stored data, keeps the identifier, touches no other session and ignores the generator |
| `Properties.CookieMatchesSavedId` | examples/sessions/app_example.py:89-97 | whenever the response starts, its headers are the application's header plus one cookie carrying the identifier just saved under |
| `Properties.FaviconKeepsStore` | examples/sessions/app_example.py:107-109 | a favicon request replaying a stored identifier leaves the store unchanged |
| `Properties.FaviconWithoutSessionFails` | examples/sessions/app_example.py:107-113 | a favicon request without a stored session saves an empty session, sets the cookie, then fails on the missing counter |
| `Properties.ServeKeepsTokenKeys` | examples/sessions/app_example.py:50-58 | if stored identifiers and the generated one are 32-digit hex tokens, every stored identifier stays one, so none is empty |
| `Properties.Revisit` | examples/sessions/app_example.py:102-109 | repeated requests replaying one stored identifier keep the store's identifiers and leave all other sessions untouched |
| `Properties.VisitCount` | examples/sessions/app_example.py:107-109 | over such a run the stored counter grows by exactly the number of non-favicon requests |
| `Properties.FirstVisit` | examples/sessions/app_example.py:102-122 | first visit to `/` on an empty store: one session with counter 1, cookie `session_id=<id>; Path=/`, the welcome |
| `Properties.SecondVisit` | examples/sessions/app_example.py:102-122 | replaying that cookie: counter 2 and the body "Hello Again!\nYou Visited 2 times" |

## Left out

- Server bootstrap (`make_server`, `serve_forever`) and the startup message (lines 124-128): process I/O.
- Parsing of the `Cookie` header with `SimpleCookie` (lines 78-84): a library. The model starts from the identifier it extracted, if any.
- `CookieString`: the formatting by `SimpleCookie.OutputString` is written out as `<key>=<id>; Path=/`. The quoting the library applies to values with special characters is not modelled. Generated identifiers never need it.
- The randomness and format of `uuid.uuid4().hex` (line 55): a library generator. Its value is a parameter. Only `ServeKeepsTokenKeys` assumes its 32-digit hex shape.
- Safety with several workers (lines 10-11): concurrency is out of scope, and the source disclaims it.
- `Middleware.SessionMiddleware.Call`: the original wraps any application passed to the constructor and calls it with the hook (lines 70-75, 99). Here `Call` always runs the counter application, so `Serve` and the `Properties` lemmas hold for that application only. For an arbitrary application, the general promise is the one `ResponseStart.Hook.Call` states. The factory argument `session_manager` and its default are not modelled either: the constructor takes the store object itself.
- `ResponseStart.Hook.Call`: the `exc_info` argument and the value the server's `start_response` returns are not modelled. The caller's header list is extended in place in the source; here the extended sequence is returned.
- The encoding of the body to bytes (line 119) and the lazy generator are not modelled: the body is the string.
- `PATH_INFO` is read with a strict lookup at line 107. The model takes the path as a parameter, because the server always supplies it.
- Aliasing between the session's dictionary and the stored entry (line 51): not reproduced, see above.
