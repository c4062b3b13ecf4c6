/** token/handler.js: how a connection handler frames incoming data and
    dispatches each message to the endpoint, turning endpoint errors into
    `error` replies and letting every other exception escape. */
module TokenDispatch {
  import opened Base
  import opened Json
  import opened Helpers
  import opened Configuration
  import opened TokenStore
  import opened Applications
  import opened TokenHandler
  import opened Endpoint

  /** The endpoint operation a message's `action` selects. */
  datatype Action = Auth | Callback | Check | Clear | UserInfo | Unknown

  /** The outside inputs one message may consume: the clock, the session id
      `doAuth` would generate and the provider's answer for the
      authorization URL. */
  datatype Env = Env(nowMs: int, sessionId: string, authCodeUrl: Result<string>)

  /** What handling one chunk leads to: nothing framed yet, the message
      handled, a code exchange waiting for the provider, or an exception that
      escapes the data listener. */
  datatype Outcome = Idle | Handled | Awaiting(exchange: Exchange) | Fatal(error: Error)

  /** `message.action == "<name>"`, tried in the order of `processMessage`. */
  function Route(message: Json): Action {
    var action := Prop(message, "action");
    if LooseEq(action, Some(JString("auth"))) then Auth
    else if LooseEq(action, Some(JString("callback"))) then Callback
    else if LooseEq(action, Some(JString("check"))) then Check
    else if LooseEq(action, Some(JString("clear"))) then Clear
    else if LooseEq(action, Some(JString("userInfo"))) then UserInfo
    else Unknown
  }

  /** The catch clause of `processMessage`: an endpoint error is answered,
      anything else is rethrown. */
  function Caught(e: Error): Outcome {
    if e.kind == EndpointError then Handled else Fatal(e)
  }

  /** The replies the catch clause writes for `e`: `writeError(err.toString())`
      for an endpoint error, nothing otherwise. */
  function CaughtFrames(codec: Codec, e: Error): seq<string> {
    if e.kind == EndpointError then [Frame(codec, "error", JString(Format(Describe(e), [])))] else []
  }

  const NotUnderstood: string := "Message is not understood"
  const ProtocolError: string := "Protocol error"

  /** The endpoint state one message can see: the handler's codec, the ids
      of the cached applications, the `apps` section, the token store's
      codec and rows, and the sessions. */
  datatype View = View(
    codec: Codec, cached: set<Json>, apps: CfgValue,
    tokenCodec: Codec, table: map<string, Row>, sessions: map<string, Session>)

  function ViewOf(h: ConnectionHandler, ep: TokenEndpoint): View
    reads ep, ep.apps, ep.tokens
  {
    View(h.codec, ep.apps.cache.Keys, ep.apps.apps, ep.tokens.codec, ep.tokens.table, ep.sessions)
  }

  /** What one message does: its outcome, the replies it writes, and the
      sessions and the cached application ids it leaves. */
  datatype Effect = Effect(out: Outcome, frames: seq<string>, sessions: map<string, Session>, cached: set<Json>)

  /** An exception thrown before anything changed, through the catch
      clause. */
  function Thrown(v: View, e: Error): Effect {
    Effect(Caught(e), CaughtFrames(v.codec, e), v.sessions, v.cached)
  }

  /** `getApplication(appId)`: None when the application is cached or
      configured, the error it throws otherwise. */
  function LookupError(v: View, appId: Json): Option<Error> {
    if appId in v.cached then None
    else
      match SettingsOf(v.apps, appId)
      case Ok(_) => None
      case Err(e) => Some(e)
  }

  /** The reply `doAuth` writes once the session is stored: the redirect,
      or an error when the provider gave no authorization URL. */
  function AuthReply(codec: Codec, env: Env, timeout: int): string {
    if env.authCodeUrl.Ok? then
      Frame(codec, "redirect", JObject(map["sessionId" := JString(env.sessionId), "timeout" := JNumber(timeout), "uri" := JString(env.authCodeUrl.value)]))
    else Frame(codec, "error", JString(Format(AuthFailed, [])))
  }

  /** The `auth` branch: a missing `appId` or an unknown application
      throws; otherwise a pending session is stored under the generated id
      and the reply written. */
  function AuthEffect(v: View, message: Json, env: Env): Effect {
    var appId := Prop(message, "appId");
    if Missing(appId) then Thrown(v, MissingField("appId"))
    else
      match LookupError(v, appId.value)
      case Some(e) => Thrown(v, e)
      case None =>
        var timeout := RoundSeconds(env.nowMs) + SessionSeconds;
        Effect(Handled, [AuthReply(v.codec, env, timeout)],
               v.sessions[env.sessionId := Session("pending", env.sessionId, timeout, appId.value)],
               v.cached + {appId.value})
  }

  /** The `callback` branch up to the code exchange: a failed check or an
      unknown application throws; otherwise the exchange starts and nothing
      is written yet. */
  function CallbackEffect(v: View, message: Json): Effect {
    match CallbackCheck(v.sessions, message)
    case Err(e) => Thrown(v, e)
    case Ok(session) =>
      match LookupError(v, session.appId)
      case Some(e) => Thrown(v, e)
      case None =>
        Effect(Awaiting(Exchange(session, Prop(message, "queryString").value)), [], v.sessions, v.cached + {session.appId})
  }

  /** `processMessage(message)`. */
  function ProcessEffect(v: View, message: Json, env: Env): Effect {
    match Route(message)
    case Auth => AuthEffect(v, message, env)
    case Callback => CallbackEffect(v, message)
    case Check => Thrown(v, SessionCheckError(v.tokenCodec, v.table, message))
    case Clear => Thrown(v, SessionCheckError(v.tokenCodec, v.table, message))
    case UserInfo => Thrown(v, DoUserInfo(message).error)
    case Unknown => Effect(Handled, [Frame(v.codec, "error", JString(NotUnderstood))], v.sessions, v.cached)
  }

  /** The listener once `receive` reported a framed line. */
  function ListenEffect(v: View, message: Message, env: Env): Effect
    requires message != NoMessage
  {
    if message.Invalid? then Effect(Handled, [Frame(v.codec, "error", JString(ProtocolError))], v.sessions, v.cached)
    else ProcessEffect(v, message.value, env)
  }

  /** `processMessage(message)` on handler `h` of endpoint `ep`. */
  method ProcessMessage(h: ConnectionHandler, ep: TokenEndpoint, message: Json, env: Env) returns (out: Outcome)
    modifies h, ep, ep.apps
    ensures var e := ProcessEffect(old(ViewOf(h, ep)), message, env);
      && out == e.out && h.written == old(h.written) + e.frames
      && ep.sessions == e.sessions && ep.apps.cache.Keys == e.cached
    ensures ep.listening == old(ep.listening) && ep.gate == old(ep.gate) && ep.cleanupEvery == old(ep.cleanupEvery)
  {
    match Route(message) {
      case Auth =>
        out := RunAuth(h, ep, message, env);
      case Callback =>
        out := RunCallback(h, ep, message);
      case Check =>
        out := RunSessionCheck(h, ep, message, false);
      case Clear =>
        out := RunSessionCheck(h, ep, message, true);
      case UserInfo =>
        out := Settle(h, DoUserInfo(message));
      case Unknown =>
        out := RunUnknown(h);
    }
  }

  /** The final `else` of `processMessage`: the message is not understood. */
  method RunUnknown(h: ConnectionHandler) returns (out: Outcome)
    modifies h
    ensures out == Handled && h.written == old(h.written) + [Frame(h.codec, "error", JString(NotUnderstood))]
  {
    h.WriteError(NotUnderstood, []);
    out := Handled;
  }

  /** The `auth` branch of `processMessage`, with its errors caught. */
  method RunAuth(h: ConnectionHandler, ep: TokenEndpoint, message: Json, env: Env) returns (out: Outcome)
    modifies h, ep, ep.apps
    ensures var e := AuthEffect(old(ViewOf(h, ep)), message, env);
      && out == e.out && h.written == old(h.written) + e.frames
      && ep.sessions == e.sessions && ep.apps.cache.Keys == e.cached
    ensures ep.listening == old(ep.listening) && ep.gate == old(ep.gate) && ep.cleanupEvery == old(ep.cleanupEvery)
  {
    var r := ep.DoAuth(h, message, env.nowMs, env.sessionId, env.authCodeUrl);
    out := Settle(h, r);
  }

  /** The `check` and `clear` branches of `processMessage`, with their
      errors caught: both report on the session's token and change nothing
      but the replies. */
  method RunSessionCheck(h: ConnectionHandler, ep: TokenEndpoint, message: Json, clear: bool) returns (out: Outcome)
    modifies h
    ensures var e := SessionCheckError(ep.tokens.codec, ep.tokens.table, message);
      out == Caught(e) && h.written == old(h.written) + CaughtFrames(h.codec, e)
  {
    var r;
    if clear {
      r := ep.DoClear(message);
    } else {
      r := ep.DoCheck(message);
    }
    out := Settle(h, r);
  }

  /** The `callback` branch of `processMessage` up to the code exchange, with
      its errors caught. Only the application cache and the replies change. */
  method RunCallback(h: ConnectionHandler, ep: TokenEndpoint, message: Json) returns (out: Outcome)
    modifies h, ep.apps
    ensures var e := CallbackEffect(old(ViewOf(h, ep)), message);
      && out == e.out && h.written == old(h.written) + e.frames
      && ep.sessions == e.sessions && ep.apps.cache.Keys == e.cached
  {
    var ex := ep.DoCallback(message);
    if ex.Ok? {
      return Awaiting(ex.value);
    }
    out := Settle(h, Err(ex.error));
  }

  /** The end of the `try` block of `processMessage`: nothing more to do
      when the operation returned, and the catch clause when it threw. */
  method Settle(h: ConnectionHandler, r: Result<()>) returns (out: Outcome)
    modifies h
    ensures r.Ok? ==> out == Handled && h.written == old(h.written)
    ensures r.Err? ==> out == Caught(r.error) && h.written == old(h.written) + CaughtFrames(h.codec, r.error)
  {
    if r.Ok? {
      return Handled;
    }
    if r.error.kind == EndpointError {
      h.WriteError(Describe(r.error), []);
      return Handled;
    }
    out := Fatal(r.error);
  }

  /** The `data` listener of `handle()`: buffer the chunk, and once a line
      has been framed hand the message on. */
  method Handle(h: ConnectionHandler, ep: TokenEndpoint, chunk: string, env: Env) returns (out: Outcome)
    modifies h, h.incoming, ep, ep.apps
    ensures var f := TryParseStep(h.incoming.codec, old(h.incoming.buffer) + chunk, old(h.incoming.message));
      && h.incoming.buffer == f.buffer && h.incoming.message == f.message
      && (!f.result ==>
            && out == Idle && h.written == old(h.written)
            && ep.sessions == old(ep.sessions) && ep.apps.cache == old(ep.apps.cache))
      && (f.result ==>
            && f.message != NoMessage
            && var e := ListenEffect(old(ViewOf(h, ep)), f.message, env);
            && out == e.out && h.written == old(h.written) + e.frames
            && ep.sessions == e.sessions && ep.apps.cache.Keys == e.cached)
  {
    StepMessage(h.incoming.codec, h.incoming.buffer + chunk, h.incoming.message);
    var ok := h.incoming.Receive(chunk);
    if !ok {
      return Idle;
    }
    var message := h.incoming.GetMessage();
    out := OnMessage(h, ep, message, env);
  }

  /** The listener once `receive` reported a framed line: a line that was
      not an object or array is a protocol error, anything else is
      processed. */
  method OnMessage(h: ConnectionHandler, ep: TokenEndpoint, message: Message, env: Env) returns (out: Outcome)
    requires message != NoMessage
    modifies h, ep, ep.apps
    ensures var e := ListenEffect(old(ViewOf(h, ep)), message, env);
      && out == e.out && h.written == old(h.written) + e.frames
      && ep.sessions == e.sessions && ep.apps.cache.Keys == e.cached
  {
    if message.Invalid? {
      h.WriteError(ProtocolError, []);
      return Handled;
    }
    out := ProcessMessage(h, ep, message.value, env);
  }

  /** Every message is answered or escapes: the outcome is never `Idle`,
      an escaping exception writes nothing and is never an endpoint error,
      at most one reply is written, only `auth` touches the sessions, and
      no cached application is forgotten. */
  lemma ProcessShape(v: View, message: Json, env: Env)
    ensures var e := ProcessEffect(v, message, env);
      && e.out != Idle
      && (e.out.Fatal? ==> e.frames == [] && e.out.error.kind != EndpointError)
      && |e.frames| <= 1
      && (Route(message) != Auth ==> e.sessions == v.sessions)
      && v.cached <= e.cached
  {
    match Route(message) {
      case Auth =>
        var appId := Prop(message, "appId");
        if !Missing(appId) {
          LookupErrorKinds(v, appId.value);
        }
      case Callback =>
        var c := CallbackCheck(v.sessions, message);
        if c.Ok? {
          LookupErrorKinds(v, c.value.appId);
        }
      case _ =>
    }
  }

  /** The code exchange starts exactly for a callback whose checks pass and
      whose application is known. */
  lemma ExchangeStarts(v: View, message: Json, env: Env)
    ensures ProcessEffect(v, message, env).out.Awaiting? <==>
      Route(message) == Callback && CallbackCheck(v.sessions, message).Ok?
      && LookupError(v, CallbackCheck(v.sessions, message).value.appId).None?
  {
    var c := CallbackCheck(v.sessions, message);
    if Route(message) == Callback && c.Err? {
      assert c.error.kind == EndpointError;
    }
  }

  /** `auth` for a known application stores one pending session under the
      generated id, leaves every other session as it was, caches the
      application, and writes the redirect (or the failure to get an
      authorization URL). */
  lemma AuthStoresSession(v: View, message: Json, env: Env)
    requires !Missing(Prop(message, "appId"))
    requires LookupError(v, Prop(message, "appId").value).None?
    ensures var e := AuthEffect(v, message, env);
      var timeout := RoundSeconds(env.nowMs) + SessionSeconds;
      && e.out == Handled && e.frames == [AuthReply(v.codec, env, timeout)]
      && e.sessions.Keys == v.sessions.Keys + {env.sessionId}
      && e.sessions[env.sessionId] == Session("pending", env.sessionId, timeout, Prop(message, "appId").value)
      && (forall id :: id in v.sessions && id != env.sessionId ==> e.sessions[id] == v.sessions[id])
      && e.cached == v.cached + {Prop(message, "appId").value}
  {
  }

  /** The lookup throws only the configuration's errors, never an endpoint
      error. */
  lemma LookupErrorKinds(v: View, appId: Json)
    ensures LookupError(v, appId).Some? ==> LookupError(v, appId).value.kind != EndpointError
  {
    if LookupError(v, appId).Some? {
      SettingsErrorKinds(v.apps, appId);
    }
  }

  /** An `auth` or `callback` for an application that is neither cached nor
      configured escapes the listener with the lookup's error, writing
      nothing and changing nothing. */
  lemma UnknownApplicationEscapes(v: View, message: Json, env: Env)
    requires Route(message) == Auth || Route(message) == Callback
    requires Route(message) == Auth ==> !Missing(Prop(message, "appId"))
    requires Route(message) == Callback ==> CallbackCheck(v.sessions, message).Ok?
    requires var appId := if Route(message) == Auth then Prop(message, "appId").value
                          else CallbackCheck(v.sessions, message).value.appId;
      LookupError(v, appId).Some?
    ensures var appId := if Route(message) == Auth then Prop(message, "appId").value
                         else CallbackCheck(v.sessions, message).value.appId;
      ProcessEffect(v, message, env) == Effect(Fatal(LookupError(v, appId).value), [], v.sessions, v.cached)
  {
    var appId := if Route(message) == Auth then Prop(message, "appId").value
                 else CallbackCheck(v.sessions, message).value.appId;
    LookupErrorKinds(v, appId);
  }

  /** A `callback` whose checks pass, for a known application, starts the
      code exchange with the stored session and the message's query string,
      writing nothing yet; a failed check is answered with its error. */
  lemma CallbackOutcomes(v: View, message: Json, env: Env)
    requires Route(message) == Callback
    ensures var c := CallbackCheck(v.sessions, message);
      && (c.Ok? && LookupError(v, c.value.appId).None? ==>
            ProcessEffect(v, message, env) ==
              Effect(Awaiting(Exchange(c.value, Prop(message, "queryString").value)), [], v.sessions, v.cached + {c.value.appId}))
      && (c.Err? ==>
            ProcessEffect(v, message, env) ==
              Effect(Handled, [Frame(v.codec, "error", JString("Error: " + c.error.message))], v.sessions, v.cached))
  {
    var c := CallbackCheck(v.sessions, message);
    if c.Err? {
      CaughtReply(v.codec, c.error);
    }
  }

  /** Routing by a string `action` is routing by the action's name; a
      message without an `action` is not understood. */
  lemma RouteByName(message: Json, name: string)
    requires Prop(message, "action") == Some(JString(name))
    ensures Route(message) == Auth <==> name == "auth"
    ensures Route(message) == Callback <==> name == "callback"
    ensures Route(message) == Check <==> name == "check"
    ensures Route(message) == Clear <==> name == "clear"
    ensures Route(message) == UserInfo <==> name == "userInfo"
  {
    var action := Prop(message, "action");
    LooseEqString(action, "auth");
    LooseEqString(action, "callback");
    LooseEqString(action, "check");
    LooseEqString(action, "clear");
    LooseEqString(action, "userInfo");
  }

  lemma NoActionNotUnderstood(message: Json)
    requires Prop(message, "action").None?
    ensures Route(message) == Unknown
  {
    var action := Prop(message, "action");
    LooseEqString(action, "auth");
    LooseEqString(action, "callback");
    LooseEqString(action, "check");
    LooseEqString(action, "clear");
    LooseEqString(action, "userInfo");
  }

  /** An endpoint error is answered with exactly one `error` reply whose text
      is "Error: " followed by the error's message; any other exception
      writes nothing. */
  lemma CaughtReply(codec: Codec, e: Error)
    ensures e.kind == EndpointError <==> Caught(e) == Handled
    ensures e.kind == EndpointError ==>
      CaughtFrames(codec, e) == [Frame(codec, "error", JString("Error: " + e.message))]
    ensures e.kind != EndpointError ==> CaughtFrames(codec, e) == [] && Caught(e) == Fatal(e)
  {
    if e.kind == EndpointError {
      var prefix := KindName(e.kind) + ": ";
      assert |prefix| == 7 && forall i :: 0 <= i < 7 ==> prefix[i] == "Error: "[i];
      assert prefix == "Error: ";
    }
  }
}
