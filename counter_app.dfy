/**
 * The example application: it counts the visits of one session, except
 * requests for the favicon, and greets the visitor accordingly.
 */
module CounterApp {
  import opened Wrappers
  import opened SessionStore
  import opened Sessions
  import opened ResponseStart

  /** The key under which the application looks for its session. */
  const AppEnvKey := "wsgisession"
  const Favicon := "/favicon.ico"
  const CounterKey := "counter"
  const OkStatus := "200 OK"
  const ContentType: Header := ("Content-Type", "text/plain")
  const Welcome := "Hello and Welcome!"
  const AgainPrefix := "Hello Again!\nYou Visited "
  const AgainSuffix := " times"

  /**
   * Why the application fails: it found no session under its key, or the
   * session holds no counter when the greeting reads it.
   */
  datatype AppError = NoSession | MissingCounter

  /** `session.get('counter', 0)`. */
  function CounterOr0(data: Data<int>): (c: int)
  {
    if CounterKey in data then data[CounterKey] else 0
  }

  /** The counter rule: every request except for the favicon counts one visit. */
  function CountVisit(data: Data<int>, path: string): (r: Data<int>)
    ensures path == Favicon ==> r == data
    ensures path != Favicon ==> r.Keys == data.Keys + {CounterKey} && r[CounterKey] == CounterOr0(data) + 1
    ensures forall k :: k in data && k != CounterKey ==> r[k] == data[k]
  {
    if path != Favicon then data[CounterKey := CounterOr0(data) + 1] else data
  }

  /** The decimal digit `d`. */
  function DigitChar(d: nat): (c: char)
    requires d < 10
    ensures '0' <= c <= '9' && c as int - '0' as int == d
  {
    ('0' as int + d) as char
  }

  /** The decimal form of `n`, most significant digit first, as string formatting writes it. */
  function Decimal(n: nat): (s: string)
    ensures |s| > 0
    ensures forall i :: 0 <= i < |s| ==> '0' <= s[i] <= '9'
    ensures n > 0 ==> s[0] != '0'
  {
    if n < 10 then [DigitChar(n)] else Decimal(n / 10) + [DigitChar(n % 10)]
  }

  /** The number a string of decimal digits denotes. */
  function DigitsValue(s: string): (v: int)
  {
    if s == [] then 0 else DigitsValue(s[..|s| - 1]) * 10 + (s[|s| - 1] as int - '0' as int)
  }

  /** Reading back the decimal form of `n` gives `n`. */
  lemma {:induction false} DecimalRoundTrip(n: nat)
    ensures DigitsValue(Decimal(n)) == n
  {
    if n >= 10 {
      var s := Decimal(n);
      assert s[..|s| - 1] == Decimal(n / 10);
      DecimalRoundTrip(n / 10);
    }
  }

  /**
   * The response body for the counter value: the welcome exactly when the
   * counter is at most 1, otherwise a message that reports the counter.
   */
  function Greeting(counter: int): (body: string)
    ensures body == Welcome <==> counter <= 1
    ensures counter > 1 ==>
              && |body| > |AgainPrefix| + |AgainSuffix|
              && body[..|AgainPrefix|] == AgainPrefix
              && body[|body| - |AgainSuffix|..] == AgainSuffix
              && var digits := body[|AgainPrefix|..|body| - |AgainSuffix|];
                 && (forall i :: 0 <= i < |digits| ==> '0' <= digits[i] <= '9')
                 && digits[0] != '0'
                 && DigitsValue(digits) == counter
  {
    if counter > 1 then
      var digits := Decimal(counter);
      var body := AgainPrefix + digits + AgainSuffix;
      DecimalRoundTrip(counter);
      assert body[|AgainPrefix|..|body| - |AgainSuffix|] == digits;
      assert body[6] != Welcome[6];
      body
    else
      Welcome
  }

  /**
   * `wrapped_app`: `session` is what the application finds under its key
   * (`null` when there is none), `path` the request path, and
   * `startResponse` the hook it starts its response with. It returns the
   * start call forwarded to the server, if one was made, and the body or
   * the error the application stopped with.
   */
  method WrappedApp(session: Session?<int>, path: string, startResponse: Hook<int>)
    returns (started: Option<Start>, body: Result<string, AppError>)
    modifies session, startResponse.session.store
    ensures session != null ==> session.id == old(session.id) && session.data == CountVisit(old(session.data), path)
    // Without a session only the favicon path gets as far as starting the response.
    ensures session == null && path != Favicon ==>
              started == None && unchanged(startResponse.session.store)
    ensures session != null || path == Favicon ==>
              && startResponse.session.store.sessions
                 == old(startResponse.session.store.sessions)[startResponse.session.id := startResponse.session.data]
              && started == Some(Start(OkStatus, [ContentType, CookieHeader(startResponse.cookieKey, startResponse.session.id)]))
    ensures session == null ==> body == Err(NoSession)
    ensures session != null ==>
              body == if CounterKey in session.data then Ok(Greeting(session.data[CounterKey])) else Err(MissingCounter)
  {
    if path != Favicon {
      if session == null {
        return None, Err(NoSession);
      }
      var count := session.Get(CounterKey, 0);
      session.Put(CounterKey, count + 1);
    }
    var call := startResponse.Call(OkStatus, [ContentType]);
    assert call.headers == [ContentType, CookieHeader(startResponse.cookieKey, startResponse.session.id)];
    started := Some(call);
    if session == null {
      return started, Err(NoSession);
    }
    var counter := session.Lookup(CounterKey);
    if counter.Err? {
      return started, Err(MissingCounter);
    }
    body := Ok(Greeting(counter.value));
  }
}
