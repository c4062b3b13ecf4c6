/** src/token.js: the older token endpoint. Its handler knows only `auth` and
    `callback`, its operations answer every failure with an `error` reply
    instead of throwing, its `start` validates nothing, and its token manager
    keeps nothing. The application lookup goes through the configuration's
    `getApplication`, which the configuration classes of this model do not
    have; its answer is an input here, like the clock, the generated ids and
    the identity provider's answers. The handler's `writeMessage` and
    `writeError` are the same as in token/handler.js, so
    `TokenHandler.ConnectionHandler` serves as the legacy handler too. */
module LegacyToken {
  import opened Base
  import opened Json
  import opened Helpers
  import opened Configuration
  import opened TokenHandler
  import opened Endpoint
  import TokenDispatch

  /** The `app` part of what `getApplication` yields; `None` when it is
      falsy. Only the presence of the application matters to the replies. */
  datatype LegacyApp = LegacyApp(userScopes: Json, redirectUri: Json)

  /** A code exchange waiting for the provider's answer. */
  datatype LegacyExchange = LegacyExchange(session: Session, code: Json)

  /** The outside inputs one message may consume. */
  datatype LegacyEnv = LegacyEnv(nowMs: int, sessionId: string, lookup: Option<LegacyApp>, authCodeUrl: Result<string>)

  datatype LegacyAction = Auth | Callback | Unknown

  datatype LegacyOutcome = Idle | Handled | Awaiting(exchange: LegacyExchange)

  /** The verdict of the checks `doCallback` makes before the lookup: a
      reply text, or the session to continue with. */
  datatype Verdict = Reject(reply: string) | Proceed(session: Session)

  const UnknownApp: string := "No such application having ID '%s'"

  /** `message.action == "auth"`, then `== "callback"`. */
  function LegacyRoute(message: Json): LegacyAction {
    var action := Prop(message, "action");
    if LooseEq(action, Some(JString("auth"))) then Auth
    else if LooseEq(action, Some(JString("callback"))) then Callback
    else Unknown
  }

  /** The whitelist `start` reads, after destructuring `port`, `host` and
      `whitelist` from the `tokenEndpoint` section. */
  function LegacyWhitelist(section: Result<Got>): Result<Json> {
    match section
    case Err(e) => Err(e)
    case Ok(got) =>
      if !got.One? then Err(Error(TypeError, "get is not a function"))
      else
        match GetOn(got.value, ["port", "host", "whitelist"])
        case Err(e) => Err(e)
        case Ok(opts) =>
          if !opts.Many? || |opts.values| != 3 then Err(Error(TypeError, "get is not a function"))
          else Ok(ToJson(opts.values[2]))
  }

  /** The checks of the legacy `doCallback` before the lookup, on the
      endpoint's `sessions`, in order: the three fields, the session, and
      its application. */
  function CallbackVerdict(sessions: map<string, Session>, message: Json): (v: Verdict)
    ensures v.Proceed? <==>
      && !Missing(Prop(message, "appId")) && !Missing(Prop(message, "sessionId")) && !Missing(Prop(message, "code"))
      && exists id :: id in sessions && Prop(message, "sessionId") == Some(JString(id))
                   && LooseEq(Some(sessions[id].appId), Prop(message, "appId"))
    ensures v.Proceed? ==> v.session in sessions.Values
  {
    var appId := Prop(message, "appId");
    var sessionId := Prop(message, "sessionId");
    if Missing(appId) then Reject("Protocol error: appId")
    else if Missing(sessionId) then Reject("Protocol error: sessionId")
    else if Missing(Prop(message, "code")) then Reject("Protocol error: code")
    else if !sessionId.value.JString? || sessionId.value.s !in sessions then Reject("Invalid session")
    else if !LooseEq(Some(sessions[sessionId.value.s].appId), appId) then Reject("Invalid application")
    else Proceed(sessions[sessionId.value.s])
  }

  /** How many of the installed connection listeners hand a connection from
      `remoteAddr` to a new handler. */
  function Admitting(gates: seq<Json>, remoteAddr: Option<Json>): (n: nat)
    ensures n <= |gates|
  {
    if gates == [] then 0
    else Admitting(gates[..|gates| - 1], remoteAddr) + (if Admits(gates[|gates| - 1], remoteAddr) then 1 else 0)
  }

  /** The legacy `TokenManager`: `get` and `set` have empty bodies. */
  class LegacyTokenManager {
    const config: Config

    constructor(config: Config)
      ensures this.config == config
    {
      this.config := config;
    }

    /** `get(id)` returns `undefined` whatever was set. */
    method Get(id: string) returns (r: Option<Json>)
      ensures r == None
    {
      r := None;
    }

    /** `set(id, token)` stores nothing. */
    method Set(id: string, token: Json)
      ensures unchanged(this)
    {
    }
  }

  class LegacyEndpoint {
    const config: Config
    const manager: LegacyTokenManager
    /** The whitelist of each connection listener `start` has installed. */
    var gates: seq<Json>
    var sessions: map<string, Session>

    constructor(manager: LegacyTokenManager)
      ensures this.manager == manager && config == manager.config
      ensures gates == [] && sessions == map[]
    {
      this.manager := manager;
      config := manager.config;
      gates := [];
      sessions := map[];
    }

    /** `start()`: read the section and install one more connection
      listener. There is no check for a running server and no validation. */
    method Start() returns (r: Result<()>)
      modifies this
      ensures var w := LegacyWhitelist(Lookup(config.cfg.context, config.cfg.cfg, ["tokenEndpoint"]));
        && (w.Err? ==> r == Err(w.error) && gates == old(gates))
        && (w.Ok? ==> r == Ok(()) && gates == old(gates) + [w.value])
      ensures sessions == old(sessions)
    {
      var section := config.Get(["tokenEndpoint"]);
      var w := LegacyWhitelist(section);
      if w.Err? {
        return Err(w.error);
      }
      gates := gates + [w.value];
      r := Ok(());
    }

    /** `stop()`: remove every connection listener. */
    method Stop()
      modifies this
      ensures gates == [] && sessions == old(sessions)
    {
      gates := [];
    }

    /** A connection from `remoteAddr`: each installed listener either
      destroys the socket or hands it to a new handler; the result is the
      number of handlers created. */
    method Accept(remoteAddr: Option<Json>) returns (handlers: nat)
      ensures handlers == Admitting(gates, remoteAddr)
    {
      handlers := 0;
      var i := 0;
      while i < |gates|
        invariant 0 <= i <= |gates|
        invariant handlers == Admitting(gates[..i], remoteAddr)
      {
        assert gates[..i + 1][..i] == gates[..i];
        if Admits(gates[i], remoteAddr) {
          handlers := handlers + 1;
        }
        i := i + 1;
      }
      assert gates[..i] == gates;
    }

    /** `doAuth(handler, message)` with `lookup` the application
      `getApplication` finds. */
    method DoAuth(h: ConnectionHandler, message: Json, nowMs: int, sessionId: string,
                  lookup: Option<LegacyApp>, authCodeUrl: Result<string>)
      modifies this, h
      ensures Missing(Prop(message, "appId")) ==>
        sessions == old(sessions) && h.written == old(h.written) + [Frame(h.codec, "error", JString("Protocol error: appId"))]
      ensures !Missing(Prop(message, "appId")) && lookup.None? ==>
        && sessions == old(sessions)
        && h.written == old(h.written) + [Frame(h.codec, "error", JString(Format(UnknownApp, [ValueString(Prop(message, "appId").value)])))]
      ensures !Missing(Prop(message, "appId")) && lookup.Some? ==>
        var timeout := RoundSeconds(nowMs) + SessionSeconds;
        && sessions == old(sessions)[sessionId := Session("pending", sessionId, timeout, Prop(message, "appId").value)]
        && h.written == old(h.written) + [
             if authCodeUrl.Ok? then
               Frame(h.codec, "redirect", JObject(map["sessionId" := JString(sessionId), "timeout" := JNumber(timeout), "uri" := JString(authCodeUrl.value)]))
             else Frame(h.codec, "error", JString(AuthFailed))]
      ensures gates == old(gates)
    {
      var appId := Prop(message, "appId");
      if Missing(appId) {
        h.WriteError("Protocol error: appId", []);
        return;
      }
      if lookup.None? {
        h.WriteError(UnknownApp, [ValueString(appId.value)]);
        return;
      }
      var timeout := RoundSeconds(nowMs) + SessionSeconds;
      sessions := sessions[sessionId := Session("pending", sessionId, timeout, appId.value)];
      if authCodeUrl.Ok? {
        h.WriteMessage("redirect", JObject(map["sessionId" := JString(sessionId), "timeout" := JNumber(timeout), "uri" := JString(authCodeUrl.value)]));
      } else {
        h.WriteError(AuthFailed, []);
      }
    }

    /** `doCallback(handler, message)` up to the start of the code exchange,
      with `lookup` what `getApplication(session.appId)` finds. No session
      changes here. */
    method DoCallback(h: ConnectionHandler, message: Json, lookup: Option<LegacyApp>) returns (ex: Option<LegacyExchange>)
      modifies h
      ensures CallbackVerdict(sessions, message).Reject? ==>
        ex == None && h.written == old(h.written) + [Frame(h.codec, "error", JString(CallbackVerdict(sessions, message).reply))]
      ensures CallbackVerdict(sessions, message).Proceed? && lookup.None? ==>
        ex == None && h.written == old(h.written) + [Frame(h.codec, "error", JString(Format(UnknownApp, [ValueString(CallbackVerdict(sessions, message).session.appId)])))]
      ensures CallbackVerdict(sessions, message).Proceed? && lookup.Some? ==>
        ex == Some(LegacyExchange(CallbackVerdict(sessions, message).session, Prop(message, "code").value)) && h.written == old(h.written)
    {
      var verdict := CallbackVerdict(sessions, message);
      if verdict.Reject? {
        h.WriteError(verdict.reply, []);
        return None;
      }
      if lookup.None? {
        h.WriteError(UnknownApp, [ValueString(verdict.session.appId)]);
        return None;
      }
      ex := Some(LegacyExchange(verdict.session, Prop(message, "code").value));
    }

    /** The continuation once the provider has answered: on success the
      session is deleted, the token handed to the manager (which keeps
      nothing) and `complete` sent with the fresh `tokenId`. */
    method CompleteCallback(h: ConnectionHandler, ex: LegacyExchange, outcome: Result<Json>, tokenId: string)
      modifies this, h
      ensures outcome.Err? ==>
        sessions == old(sessions) && h.written == old(h.written) + [Frame(h.codec, "error", JString(ExchangeFailed))]
      ensures outcome.Ok? ==>
        && sessions == old(sessions) - {ex.session.sessionId}
        && h.written == old(h.written) + [Frame(h.codec, "complete", JObject(map["sessionId" := JString(tokenId)]))]
      ensures gates == old(gates)
    {
      if outcome.Err? {
        h.WriteError(ExchangeFailed, []);
        return;
      }
      sessions := sessions - {ex.session.sessionId};
      manager.Set(tokenId, outcome.value);
      h.WriteMessage("complete", JObject(map["sessionId" := JString(tokenId)]));
    }
  }

  /** What one message does to the legacy endpoint: its outcome, the
      replies it writes, and the sessions it leaves. */
  datatype LegacyEffect = LegacyEffect(out: LegacyOutcome, frames: seq<string>, sessions: map<string, Session>)

  function ErrorReply(codec: Codec, text: string): string {
    Frame(codec, "error", JString(text))
  }

  /** The legacy `doAuth`: every failure is answered with an `error` reply;
      a known application gets a pending session and the redirect. */
  function LegacyAuthEffect(codec: Codec, sessions: map<string, Session>, message: Json, env: LegacyEnv): LegacyEffect {
    var appId := Prop(message, "appId");
    if Missing(appId) then LegacyEffect(Handled, [ErrorReply(codec, "Protocol error: appId")], sessions)
    else if env.lookup.None? then
      LegacyEffect(Handled, [ErrorReply(codec, Format(UnknownApp, [ValueString(appId.value)]))], sessions)
    else
      var timeout := RoundSeconds(env.nowMs) + SessionSeconds;
      LegacyEffect(Handled,
        [if env.authCodeUrl.Ok? then
           Frame(codec, "redirect", JObject(map["sessionId" := JString(env.sessionId), "timeout" := JNumber(timeout), "uri" := JString(env.authCodeUrl.value)]))
         else ErrorReply(codec, AuthFailed)],
        sessions[env.sessionId := Session("pending", env.sessionId, timeout, appId.value)])
  }

  /** The legacy `doCallback` up to the code exchange: a rejected check or
      an unknown application is answered; otherwise the exchange starts. */
  function LegacyCallbackEffect(codec: Codec, sessions: map<string, Session>, message: Json, env: LegacyEnv): LegacyEffect {
    match CallbackVerdict(sessions, message)
    case Reject(reply) => LegacyEffect(Handled, [ErrorReply(codec, reply)], sessions)
    case Proceed(session) =>
      if env.lookup.None? then
        LegacyEffect(Handled, [ErrorReply(codec, Format(UnknownApp, [ValueString(session.appId)]))], sessions)
      else LegacyEffect(Awaiting(LegacyExchange(session, Prop(message, "code").value)), [], sessions)
  }

  /** The legacy `processMessage(message)`. */
  function LegacyProcessEffect(codec: Codec, sessions: map<string, Session>, message: Json, env: LegacyEnv): LegacyEffect {
    match LegacyRoute(message)
    case Auth => LegacyAuthEffect(codec, sessions, message, env)
    case Callback => LegacyCallbackEffect(codec, sessions, message, env)
    case Unknown => LegacyEffect(Handled, [ErrorReply(codec, TokenDispatch.NotUnderstood)], sessions)
  }

  /** The legacy listener once a line has been framed. */
  function LegacyListenEffect(codec: Codec, sessions: map<string, Session>, message: Message, env: LegacyEnv): LegacyEffect
    requires message != NoMessage
  {
    if message.Invalid? then LegacyEffect(Handled, [ErrorReply(codec, TokenDispatch.ProtocolError)], sessions)
    else LegacyProcessEffect(codec, sessions, message.value, env)
  }

  /** The `auth` branch of the legacy `processMessage`. */
  method RunAuth(h: ConnectionHandler, ep: LegacyEndpoint, message: Json, env: LegacyEnv) returns (out: LegacyOutcome)
    modifies h, ep
    ensures var e := LegacyAuthEffect(h.codec, old(ep.sessions), message, env);
      out == e.out && h.written == old(h.written) + e.frames && ep.sessions == e.sessions
    ensures ep.gates == old(ep.gates)
  {
    ep.DoAuth(h, message, env.nowMs, env.sessionId, env.lookup, env.authCodeUrl);
    out := Handled;
  }

  /** The `callback` branch of the legacy `processMessage`. */
  method RunCallback(h: ConnectionHandler, ep: LegacyEndpoint, message: Json, env: LegacyEnv) returns (out: LegacyOutcome)
    modifies h
    ensures var e := LegacyCallbackEffect(h.codec, ep.sessions, message, env);
      out == e.out && h.written == old(h.written) + e.frames && ep.sessions == e.sessions
  {
    var ex := ep.DoCallback(h, message, env.lookup);
    out := if ex.Some? then Awaiting(ex.value) else Handled;
  }

  /** The legacy `processMessage(message)`: no exception handling, since the
      legacy operations answer their failures themselves. */
  method ProcessMessage(h: ConnectionHandler, ep: LegacyEndpoint, message: Json, env: LegacyEnv) returns (out: LegacyOutcome)
    modifies h, ep
    ensures var e := LegacyProcessEffect(h.codec, old(ep.sessions), message, env);
      out == e.out && h.written == old(h.written) + e.frames && ep.sessions == e.sessions
    ensures ep.gates == old(ep.gates)
  {
    match LegacyRoute(message) {
      case Auth =>
        out := RunAuth(h, ep, message, env);
      case Callback =>
        out := RunCallback(h, ep, message, env);
      case Unknown =>
        h.WriteError(TokenDispatch.NotUnderstood, []);
        out := Handled;
    }
  }

  /** The legacy `data` listener, identical to the current one but for the
      dispatch: buffer the chunk and hand a framed message on. */
  method Handle(h: ConnectionHandler, ep: LegacyEndpoint, chunk: string, env: LegacyEnv) returns (out: LegacyOutcome)
    modifies h, h.incoming, ep
    ensures var f := TryParseStep(h.incoming.codec, old(h.incoming.buffer) + chunk, old(h.incoming.message));
      && h.incoming.buffer == f.buffer && h.incoming.message == f.message
      && (!f.result ==> out == Idle && h.written == old(h.written) && ep.sessions == old(ep.sessions))
      && (f.result ==>
            && f.message != NoMessage
            && var e := LegacyListenEffect(h.codec, old(ep.sessions), f.message, env);
            && out == e.out && h.written == old(h.written) + e.frames && ep.sessions == e.sessions)
    ensures ep.gates == old(ep.gates)
  {
    StepMessage(h.incoming.codec, h.incoming.buffer + chunk, h.incoming.message);
    var ok := h.incoming.Receive(chunk);
    if !ok {
      return Idle;
    }
    var message := h.incoming.GetMessage();
    out := OnMessage(h, ep, message, env);
  }

  /** The legacy listener once a line has been framed: a protocol error for
      a line that was not an object or array, the legacy dispatch
      otherwise. */
  method OnMessage(h: ConnectionHandler, ep: LegacyEndpoint, message: Message, env: LegacyEnv) returns (out: LegacyOutcome)
    requires message != NoMessage
    modifies h, ep
    ensures var e := LegacyListenEffect(h.codec, old(ep.sessions), message, env);
      out == e.out && h.written == old(h.written) + e.frames && ep.sessions == e.sessions
    ensures ep.gates == old(ep.gates)
  {
    if message.Invalid? {
      h.WriteError(TokenDispatch.ProtocolError, []);
      return Handled;
    }
    out := ProcessMessage(h, ep, message.value, env);
  }

  /** The legacy handler answers every message it does not hand to the
      provider with exactly one reply, and only `auth` changes the
      sessions. */
  lemma LegacyAnswersOnce(codec: Codec, sessions: map<string, Session>, message: Json, env: LegacyEnv)
    ensures var e := LegacyProcessEffect(codec, sessions, message, env);
      && e.out != Idle
      && (e.out.Awaiting? <==> e.frames == [])
      && |e.frames| <= 1
      && (LegacyRoute(message) != Auth ==> e.sessions == sessions)
      && (e.out.Awaiting? <==>
            LegacyRoute(message) == Callback && CallbackVerdict(sessions, message).Proceed? && env.lookup.Some?)
  {
  }

  /** A rejected callback is answered with the check's reply text, and an
      accepted one whose application is not found names the application. */
  lemma LegacyCallbackReplies(codec: Codec, sessions: map<string, Session>, message: Json, env: LegacyEnv)
    requires LegacyRoute(message) == Callback
    ensures var v := CallbackVerdict(sessions, message);
      && (v.Reject? ==>
            LegacyProcessEffect(codec, sessions, message, env) == LegacyEffect(Handled, [ErrorReply(codec, v.reply)], sessions))
      && (v.Proceed? && env.lookup.None? ==>
            LegacyProcessEffect(codec, sessions, message, env).frames
              == [ErrorReply(codec, Format(UnknownApp, [ValueString(v.session.appId)]))])
  {
  }

  /** For an `auth` whose application both handlers find, the legacy and
      the current `doAuth` store the same session and write the same reply. */
  lemma AuthAgrees(v: TokenDispatch.View, message: Json, env: LegacyEnv)
    requires !Missing(Prop(message, "appId"))
    requires env.lookup.Some? && TokenDispatch.LookupError(v, Prop(message, "appId").value).None?
    ensures var current := TokenDispatch.AuthEffect(v, message, TokenDispatch.Env(env.nowMs, env.sessionId, env.authCodeUrl));
      var legacy := LegacyAuthEffect(v.codec, v.sessions, message, env);
      && current.out == TokenDispatch.Handled && legacy.out == Handled
      && current.frames == legacy.frames && current.sessions == legacy.sessions
  {
    assert Format(AuthFailed, []) == AuthFailed;
  }

  /** The legacy handler routes `auth` and `callback` exactly as the current
      one does, and everything the current one sends elsewhere is not
      understood. */
  lemma RouteAgrees(message: Json)
    ensures LegacyRoute(message) == Auth <==> TokenDispatch.Route(message) == TokenDispatch.Auth
    ensures LegacyRoute(message) == Callback <==> TokenDispatch.Route(message) == TokenDispatch.Callback
  {
  }

  /** A `check` request, which the current handler serves, is not
      understood by the legacy one. */
  lemma CheckNotUnderstood(message: Json)
    requires Prop(message, "action") == Some(JString("check"))
    ensures LegacyRoute(message) == Unknown
    ensures TokenDispatch.Route(message) == TokenDispatch.Check
  {
    TokenDispatch.RouteByName(message, "check");
    LooseEqString(Prop(message, "action"), "auth");
    LooseEqString(Prop(message, "action"), "callback");
  }

  /** Each listener `start` installs counts separately: starting twice with
      the same whitelist makes every admitted connection get two handlers. */
  lemma {:induction false} AdmittingAppend(gates: seq<Json>, w: Json, remoteAddr: Option<Json>)
    ensures Admitting(gates + [w], remoteAddr) == Admitting(gates, remoteAddr) + (if Admits(w, remoteAddr) then 1 else 0)
  {
    assert (gates + [w])[..|gates|] == gates;
  }

  lemma {:induction false} AdmittingBound(gates: seq<Json>, remoteAddr: Option<Json>)
    ensures Admitting(gates, remoteAddr) == |gates| <==> forall i :: 0 <= i < |gates| ==> Admits(gates[i], remoteAddr)
  {
    if gates != [] {
      var init := gates[..|gates| - 1];
      AdmittingBound(init, remoteAddr);
      assert forall i :: 0 <= i < |init| ==> init[i] == gates[i];
    }
  }
}
