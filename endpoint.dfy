/** token/endpoint.js: the token endpoint's lifecycle, its connection gate,
    and the operations behind the protocol's actions. The identity provider's
    asynchronous answers (the authorization URL, the code exchange) are
    inputs, and the code exchange is split into the synchronous part
    (`DoCallback`) and the continuation that runs when the provider answers
    (`CompleteCallback`). Clocks and random identifiers are inputs too. */
module Endpoint {
  import opened Base
  import opened Json
  import opened Helpers
  import opened Configuration
  import opened Tokens
  import opened TokenStore
  import opened Applications
  import opened TokenHandler

  /** How long a login session stays pending, in seconds. */
  const SessionSeconds: int := 3600

  /** The state of a login started by `auth`. */
  datatype Session = Session(state: string, sessionId: string, timeout: int, appId: Json)

  /** A code exchange waiting for the provider's answer. */
  datatype Exchange = Exchange(session: Session, queryString: Json)

  /** The four options read from the `tokenEndpoint` section. */
  datatype EndpointSettings = EndpointSettings(port: Json, host: Json, whitelist: Json, cleanupInterval: Json)

  const AlreadyStarted: Error := Error(PlainError, "TokenEndpoint is already started")
  const NotStarted: Error := Error(PlainError, "TokenEndpoint is not started")
  const NoTokenForSession: Error := Error(EndpointError, "The session is invalid: no token for session")
  const ExchangeFailed: string := "Failed to acquire access token"
  const AuthFailed: string := "Failed to initiate authentication"

  function MissingField(field: string): Error {
    Error(EndpointError, "Message missing " + field)
  }

  /** How `%d` renders a value. Strings are taken as not numeric. */
  function DecimalArg(v: Option<Json>): string {
    match ToNumber(v)
    case Some(n) => IntToString(n)
    case None => "NaN"
  }

  /** `host` must be a non-empty string and `port` a number in 1..65535. */
  predicate ValidTcp(host: Json, port: Json) {
    host.JString? && host.s != "" && port.JNumber? && 0 < port.n <= 65535
  }

  /** `cleanupInterval` must be a number of at least one second. */
  predicate ValidInterval(interval: Json) {
    interval.JNumber? && interval.n >= 1
  }

  /** The settings `start` reads from the result of looking up
      `tokenEndpoint`, and their validation: the TCP pair is checked before
      the cleanup interval. */
  function StartSettings(section: Result<Got>): Result<EndpointSettings> {
    match section
    case Err(e) => Err(e)
    case Ok(got) =>
      if !got.One? then Err(Error(TypeError, "get is not a function"))
      else
        match GetOn(got.value, ["port", "host", "whitelist", "cleanupInterval"])
        case Err(e) => Err(e)
        case Ok(opts) =>
          if !opts.Many? || |opts.values| != 4 then Err(Error(TypeError, "get is not a function"))
          else
            var port := ToJson(opts.values[0]);
            var host := ToJson(opts.values[1]);
            var whitelist := ToJson(opts.values[2]);
            var interval := ToJson(opts.values[3]);
            if !ValidTcp(host, port) then
              Err(Error(PlainError, Format("Invalid TCP config for 'tokenEndpoint': '%s:%d'", [ValueString(host), DecimalArg(Some(port))])))
            else if !ValidInterval(interval) then
              Err(Error(PlainError, Format("Cleanup interval '%d' is invalid", [DecimalArg(Some(interval))])))
            else Ok(EndpointSettings(port, host, whitelist, interval))
  }

  /** The connection gate: with a non-empty whitelist array, some entry must
      loosely equal the remote address; otherwise everyone is admitted. The
      entries are compared as configured, since the conversion loop at start
      never converts any. */
  predicate Admits(whitelist: Json, remoteAddr: Option<Json>) {
    if whitelist.JArray? && |whitelist.items| > 0 then
      exists i :: 0 <= i < |whitelist.items| && LooseEq(Some(whitelist.items[i]), remoteAddr)
    else true
  }

  /** The value `tokenInfo` destructured from `tokenManager.get(id)`, which
      returns `{appId, isUser, token}`. */
  function EntryObject(e: Entry): Json {
    JObject(map["appId" := e.appId, "isUser" := JBool(e.isUser), "token" := e.token])
  }

  /** The checks of `doCallback` before the application is looked up, on
      the endpoint's `sessions`: the three fields, the session, and its
      application. */
  function CallbackCheck(sessions: map<string, Session>, message: Json): (r: Result<Session>)
    ensures r.Ok? <==>
      && !Missing(Prop(message, "appId")) && !Missing(Prop(message, "queryString"))
      && exists id :: id in sessions && Prop(message, "sessionId") == Some(JString(id))
                   && LooseEq(Some(sessions[id].appId), Prop(message, "appId"))
    ensures r.Ok? ==> r.value in sessions.Values
    ensures r.Err? ==> r.error.kind == EndpointError
  {
    var appId := Prop(message, "appId");
    var sessionId := Prop(message, "sessionId");
    if Missing(appId) then Err(MissingField("appId"))
    else if Missing(Prop(message, "sessionId")) then Err(MissingField("sessionId"))
    else if Missing(Prop(message, "queryString")) then Err(MissingField("queryString"))
    else if !sessionId.value.JString? || sessionId.value.s !in sessions then Err(Error(EndpointError, "Invalid session"))
    else if !LooseEq(Some(sessions[sessionId.value.s].appId), appId) then Err(Error(EndpointError, "Invalid application"))
    else Ok(sessions[sessionId.value.s])
  }

  /** The exception `doCheck` and `doClear` end in: a missing field, the
      error of `tokenManager.get`, or, since the destructured `tokenInfo` is
      always undefined, "no token for session". */
  function SessionCheckError(codec: Codec, table: map<string, Row>, message: Json): Error {
    var appId := Prop(message, "appId");
    var sessionId := Prop(message, "sessionId");
    if Missing(appId) then MissingField("appId")
    else if Missing(sessionId) then MissingField("sessionId")
    else
      match GetSpec(codec, table, JsString(sessionId))
      case Err(e) => e
      case Ok(entry) =>
        if !Truthy(Prop(EntryObject(entry), "tokenInfo")) then NoTokenForSession
        else Error(EndpointError, "The associated token does not belong to the indicated application")
  }

  /** `doUserInfo(handler, message)`: it always throws. Missing fields and a
      `select` that is neither an array nor a string are endpoint errors;
      reassigning the constant `select` and calling the absent
      `tokenManager.getToken` are TypeErrors. */
  function DoUserInfo(message: Json): (r: Result<()>)
    ensures r.Err?
  {
    var select := Prop(message, "select");
    if Missing(Prop(message, "appId")) then Err(Error(EndpointError, "Protocol message missing property 'appId'"))
    else if Missing(Prop(message, "sessionId")) then Err(Error(EndpointError, "Protocol message missing property 'sessionId'"))
    else if Truthy(select) && !select.value.JArray? then
      if !select.value.JString? then Err(Error(EndpointError, "Invalid 'select' property in message"))
      else Err(Error(TypeError, "Assignment to constant variable."))
    else Err(Error(TypeError, "this.tokenManager.getToken is not a function"))
  }

  class TokenEndpoint {
    const config: Config
    const apps: ApplicationManager
    const tokens: TokenManager
    var listening: bool
    /** The period of the cleanup timer in milliseconds, while it is set. */
    var cleanupEvery: Option<int>
    /** The whitelist the connection listener checks, while it is installed. */
    var gate: Option<Json>
    var sessions: map<string, Session>

    constructor(config: Config, apps: ApplicationManager, tokens: TokenManager)
      ensures this.config == config && this.apps == apps && this.tokens == tokens
      ensures !listening && cleanupEvery == None && gate == None && sessions == map[]
    {
      this.config := config;
      this.apps := apps;
      this.tokens := tokens;
      listening := false;
      cleanupEvery := None;
      gate := None;
      sessions := map[];
    }

    /** `start()` at clock reading `nowMs`: refuse a second start, read and
      validate the settings, install the connection gate, set the cleanup
      timer and run one cleanup at once, whose error propagates. */
    method Start(nowMs: int) returns (r: Result<()>)
      modifies this, tokens
      ensures old(listening) ==> r == Err(AlreadyStarted) && unchanged(this) && tokens.table == old(tokens.table)
      ensures !old(listening) && StartSettings(Lookup(config.cfg.context, config.cfg.cfg, ["tokenEndpoint"])).Err? ==>
        && r == Err(StartSettings(Lookup(config.cfg.context, config.cfg.cfg, ["tokenEndpoint"])).error)
        && unchanged(this) && tokens.table == old(tokens.table)
      ensures !old(listening) && StartSettings(Lookup(config.cfg.context, config.cfg.cfg, ["tokenEndpoint"])).Ok? ==>
        var s := StartSettings(Lookup(config.cfg.context, config.cfg.cfg, ["tokenEndpoint"])).value;
        && listening && gate == Some(s.whitelist) && cleanupEvery == Some(s.cleanupInterval.n * 1000)
        && sessions == old(sessions)
        && (CleanupSpec(tokens.codec, old(tokens.table), nowMs).Ok? ==>
              r == Ok(()) && tokens.table == CleanupSpec(tokens.codec, old(tokens.table), nowMs).value)
        && (CleanupSpec(tokens.codec, old(tokens.table), nowMs).Err? ==>
              r == Err(NullPayload) && tokens.table == old(tokens.table))
    {
      if listening {
        return Err(AlreadyStarted);
      }
      var section := config.Get(["tokenEndpoint"]);
      var settings := StartSettings(section);
      if settings.Err? {
        return Err(settings.error);
      }
      var s := settings.value;
      gate := Some(s.whitelist);
      listening := true;
      cleanupEvery := Some(s.cleanupInterval.n * 1000);
      r := tokens.Cleanup(nowMs);
    }

    /** `stop()`: refuse when not listening; otherwise remove the gate, close
      and clear the timer. */
    method Stop() returns (r: Result<()>)
      modifies this
      ensures !old(listening) ==> r == Err(NotStarted) && unchanged(this)
      ensures old(listening) ==> r == Ok(()) && !listening && gate == None && cleanupEvery == None
      ensures sessions == old(sessions)
    {
      if !listening {
        return Err(NotStarted);
      }
      gate := None;
      listening := false;
      cleanupEvery := None;
      r := Ok(());
    }

    /** A connection from `remoteAddr` (the socket's `remoteAddr`, which is
      undefined on Node sockets) is handed to a handler, or destroyed
      without a reply. */
    method Accept(remoteAddr: Option<Json>) returns (admitted: bool)
      ensures admitted <==> gate.Some? && Admits(gate.value, remoteAddr)
    {
      if gate.None? {
        return false;
      }
      var whitelist := gate.value;
      admitted := true;
      if whitelist.JArray? && |whitelist.items| > 0 {
        admitted := false;
        var i := 0;
        while i < |whitelist.items|
          invariant 0 <= i <= |whitelist.items|
          invariant !admitted <==> forall j :: 0 <= j < i ==> !LooseEq(Some(whitelist.items[j]), remoteAddr)
        {
          if LooseEq(Some(whitelist.items[i]), remoteAddr) {
            admitted := true;
          }
          i := i + 1;
        }
      }
    }

    /** `doAuth(handler, message)` at clock reading `nowMs`, with `sessionId`
      the generated UUID and `authCodeUrl` the provider's answer for the
      authorization URL. */
    method DoAuth(h: ConnectionHandler, message: Json, nowMs: int, sessionId: string, authCodeUrl: Result<string>)
      returns (r: Result<()>)
      modifies this, h, apps
      ensures Missing(Prop(message, "appId")) ==>
        && r == Err(MissingField("appId")) && sessions == old(sessions) && h.written == old(h.written)
        && apps.cache == old(apps.cache)
      ensures !Missing(Prop(message, "appId")) ==>
        var appId := Prop(message, "appId").value;
        && (appId in old(apps.cache) ==> apps.cache == old(apps.cache))
        && (appId !in old(apps.cache) && SettingsOf(apps.apps, appId).Err? ==>
              && r == Err(SettingsOf(apps.apps, appId).error) && sessions == old(sessions) && h.written == old(h.written)
              && apps.cache == old(apps.cache))
        && (appId !in old(apps.cache) && SettingsOf(apps.apps, appId).Ok? ==>
              appId in apps.cache && fresh(apps.cache[appId]) && apps.cache == old(apps.cache)[appId := apps.cache[appId]])
        && (appId in old(apps.cache) || SettingsOf(apps.apps, appId).Ok? ==>
              var timeout := RoundSeconds(nowMs) + SessionSeconds;
              && r == Ok(())
              && sessions == old(sessions)[sessionId := Session("pending", sessionId, timeout, appId)]
              && h.written == old(h.written) + [
                   if authCodeUrl.Ok? then
                     Frame(h.codec, "redirect", JObject(map["sessionId" := JString(sessionId), "timeout" := JNumber(timeout), "uri" := JString(authCodeUrl.value)]))
                   else Frame(h.codec, "error", JString(Format(AuthFailed, [])))])
      ensures listening == old(listening) && gate == old(gate) && cleanupEvery == old(cleanupEvery)
    {
      var appId := Prop(message, "appId");
      if Missing(appId) {
        return Err(MissingField("appId"));
      }
      var app := apps.GetApplication(appId.value);
      if app.Err? {
        return Err(app.error);
      }
      var timeout := RoundSeconds(nowMs) + SessionSeconds;
      sessions := sessions[sessionId := Session("pending", sessionId, timeout, appId.value)];
      if authCodeUrl.Ok? {
        h.WriteMessage("redirect", JObject(map["sessionId" := JString(sessionId), "timeout" := JNumber(timeout), "uri" := JString(authCodeUrl.value)]));
      } else {
        h.WriteError(AuthFailed, []);
      }
      r := Ok(());
    }

    /** `doCallback(handler, message)` up to the start of the code exchange.
      Nothing but the application cache changes. */
    method DoCallback(message: Json) returns (r: Result<Exchange>)
      modifies apps
      ensures CallbackCheck(sessions, message).Err? ==>
        r == Err(CallbackCheck(sessions, message).error) && apps.cache == old(apps.cache)
      ensures CallbackCheck(sessions, message).Ok? ==>
        var session := CallbackCheck(sessions, message).value;
        && (session.appId in old(apps.cache) ==>
              r == Ok(Exchange(session, Prop(message, "queryString").value)) && apps.cache == old(apps.cache))
        && (session.appId !in old(apps.cache) && SettingsOf(apps.apps, session.appId).Err? ==>
              r == Err(SettingsOf(apps.apps, session.appId).error) && apps.cache == old(apps.cache))
        && (session.appId !in old(apps.cache) && SettingsOf(apps.apps, session.appId).Ok? ==>
              && r == Ok(Exchange(session, Prop(message, "queryString").value))
              && session.appId in apps.cache && fresh(apps.cache[session.appId])
              && apps.cache == old(apps.cache)[session.appId := apps.cache[session.appId]])
    {
      var appId := Prop(message, "appId");
      if Missing(appId) {
        return Err(MissingField("appId"));
      }
      var sessionId := Prop(message, "sessionId");
      if Missing(sessionId) {
        return Err(MissingField("sessionId"));
      }
      var queryString := Prop(message, "queryString");
      if Missing(queryString) {
        return Err(MissingField("queryString"));
      }
      if !sessionId.value.JString? || sessionId.value.s !in sessions {
        return Err(Error(EndpointError, "Invalid session"));
      }
      var session := sessions[sessionId.value.s];
      if !LooseEq(Some(session.appId), appId) {
        return Err(Error(EndpointError, "Invalid application"));
      }
      var app := apps.GetApplication(session.appId);
      if app.Err? {
        return Err(app.error);
      }
      r := Ok(Exchange(session, queryString.value));
    }

    /** The continuation of `doCallback` once the provider has answered with
      `outcome`, storing the token under the random `tokenId`. On success the
      session is deleted first, so it is gone even when the insert fails; a
      failed exchange keeps the session. */
    method CompleteCallback(h: ConnectionHandler, ex: Exchange, outcome: Result<Json>, tokenId: string)
      modifies this, h, tokens
      ensures outcome.Err? ==>
        && sessions == old(sessions) && tokens.table == old(tokens.table)
        && h.written == old(h.written) + [Frame(h.codec, "error", JString(ExchangeFailed))]
      ensures outcome.Ok? ==> sessions == old(sessions) - {ex.session.sessionId}
      ensures outcome.Ok? && tokenId !in old(tokens.table) ==>
        && tokens.table == old(tokens.table)[tokenId := RowOf(tokens.codec, ex.session.appId, true, outcome.value)]
        && h.written == old(h.written) + [Frame(h.codec, "complete", JObject(map["sessionId" := JString(tokenId)]))]
      ensures outcome.Ok? && tokenId in old(tokens.table) ==>
        && tokens.table == old(tokens.table)
        && h.written == old(h.written) + [Frame(h.codec, "error", JString(ExchangeFailed))]
      ensures listening == old(listening) && gate == old(gate)
    {
      if outcome.Err? {
        h.WriteError(ExchangeFailed, []);
        return;
      }
      sessions := sessions - {ex.session.sessionId};
      var stored := tokens.Set(tokenId, ex.session.appId, true, outcome.value);
      if stored.Err? {
        h.WriteError(ExchangeFailed, []);
        return;
      }
      h.WriteMessage("complete", JObject(map["sessionId" := JString(tokenId)]));
    }

    /** `doCheck(handler, message)`: the checks up to the first throw. */
    method DoCheck(message: Json) returns (r: Result<()>)
      ensures r == Err(SessionCheckError(tokens.codec, tokens.table, message))
    {
      var e := SessionToken(message);
      r := Err(e);
    }

    /** `doClear(handler, message)`: the same checks as `doCheck`, so it
      throws before reaching `tokenManager.remove`. */
    method DoClear(message: Json) returns (r: Result<()>)
      ensures r == Err(SessionCheckError(tokens.codec, tokens.table, message))
    {
      var e := SessionToken(message);
      r := Err(e);
    }

    /** The shared start of `doCheck` and `doClear`: validate the fields,
      `get` the token and destructure `tokenInfo` from the entry. */
    method SessionToken(message: Json) returns (e: Error)
      ensures e == SessionCheckError(tokens.codec, tokens.table, message)
    {
      var appId := Prop(message, "appId");
      if Missing(appId) {
        return MissingField("appId");
      }
      var sessionId := Prop(message, "sessionId");
      if Missing(sessionId) {
        return MissingField("sessionId");
      }
      var got := tokens.Get(JsString(sessionId));
      if got.Err? {
        return got.error;
      }
      var tokenInfo := Prop(EntryObject(got.value), "tokenInfo");
      assert tokenInfo.None?;
      e := NoTokenForSession;
    }
  }

  /** `doCheck` and `doClear` never get past the token lookup: when the
      fields are present and the row exists and parses, the result is "no
      token for session", whatever the token, its application or its user
      flag. */
  lemma CheckNeverFindsToken(codec: Codec, table: map<string, Row>, message: Json)
    requires !Missing(Prop(message, "appId")) && !Missing(Prop(message, "sessionId"))
    requires GetSpec(codec, table, JsString(Prop(message, "sessionId"))).Ok?
    ensures SessionCheckError(codec, table, message) == NoTokenForSession
  {
    var entry := GetSpec(codec, table, JsString(Prop(message, "sessionId"))).value;
    assert Prop(EntryObject(entry), "tokenInfo") == None;
  }

  /** The only errors `doCheck` and `doClear` throw that are not endpoint
      errors are those of `tokenManager.get`: an unknown session id or a row
      that does not parse. */
  lemma CheckErrorKinds(codec: Codec, table: map<string, Row>, message: Json)
    ensures var e := SessionCheckError(codec, table, message);
      e.kind != EndpointError ==>
        && !Missing(Prop(message, "appId")) && !Missing(Prop(message, "sessionId"))
        && var id := JsString(Prop(message, "sessionId"));
           (id !in table && e == NoRow) || (id in table && codec.parse(table[id].value).None? && e.kind == PlainError)
  {
    if !Missing(Prop(message, "appId")) && !Missing(Prop(message, "sessionId")) {
      var id := JsString(Prop(message, "sessionId"));
      if GetSpec(codec, table, id).Ok? {
        CheckNeverFindsToken(codec, table, message);
      }
    }
  }

  /** `doUserInfo` reports its validation failures as endpoint errors and
      otherwise throws a TypeError. */
  lemma UserInfoErrors(message: Json)
    ensures DoUserInfo(message).error.kind == EndpointError <==>
      || Missing(Prop(message, "appId"))
      || Missing(Prop(message, "sessionId"))
      || (Truthy(Prop(message, "select")) && !Prop(message, "select").value.JArray? && !Prop(message, "select").value.JString?)
  {
  }

  /** The settings `start` accepts are exactly the ones with a non-empty
      string host, a port in 1..65535 and a cleanup interval of at least one
      second. */
  lemma StartValidation(section: Result<Got>)
    ensures StartSettings(section).Ok? ==>
      var s := StartSettings(section).value;
      ValidTcp(s.host, s.port) && ValidInterval(s.cleanupInterval)
    ensures section.Ok? && section.value.One? && section.value.value.Node? ==>
      var n := section.value.value;
      var keys := ["port", "host", "whitelist", "cleanupInterval"];
      (forall i :: 0 <= i < |keys| ==> keys[i] in n.entries) ==>
        (StartSettings(section).Ok? <==>
          ValidTcp(ToJson(n.entries["host"]), ToJson(n.entries["port"])) && ValidInterval(ToJson(n.entries["cleanupInterval"])))
  {
  }

  /** The socket exposes `remoteAddress`, not `remoteAddr`, so the address
      the gate sees is undefined: a non-empty whitelist admits only when it
      holds `null`. */
  lemma GateSeesUndefined(whitelist: Json)
    ensures Admits(whitelist, None) <==>
      !whitelist.JArray? || |whitelist.items| == 0 || JNull in whitelist.items
  {
    if whitelist.JArray? && |whitelist.items| > 0 && JNull in whitelist.items {
      var i :| 0 <= i < |whitelist.items| && whitelist.items[i] == JNull;
      assert LooseEq(Some(whitelist.items[i]), None);
    }
  }

  /** For a whitelist of strings and a string address, admission is plain
      membership. */
  lemma GateOfStrings(whitelist: seq<Json>, addr: string)
    requires |whitelist| > 0 && forall i :: 0 <= i < |whitelist| ==> whitelist[i].JString?
    ensures Admits(JArray(whitelist), Some(JString(addr))) <==> JString(addr) in whitelist
  {
    if JString(addr) in whitelist {
      var i :| 0 <= i < |whitelist| && whitelist[i] == JString(addr);
      LooseEqString(Some(whitelist[i]), addr);
    }
    if Admits(JArray(whitelist), Some(JString(addr))) {
      var i :| 0 <= i < |whitelist| && LooseEq(Some(whitelist[i]), Some(JString(addr)));
      LooseEqString(Some(whitelist[i]), addr);
    }
  }
}
