/** application-manager.js: the per-application client settings drawn from
    the `apps` section of the configuration, the cache of application
    wrappers, the logout URL and the conversion of an authentication result
    into the stored token payload. The identity-provider client itself is
    foreign; it is represented by the client configuration it is built
    from. */
module Applications {
  import opened Base
  import opened Json
  import opened Helpers
  import opened Configuration
  import Tokens

  /** The one credential handed to the client, by precedence. */
  datatype Credential =
    | ClientSecret(secret: Json)
    | ClientCertificate(certificate: Json)
    | ClientAssertion(assertion: Json)
    | NoCredential

  /** The `auth` block of the client configuration. */
  datatype ClientConfig = ClientConfig(clientId: Option<Json>, authorityUrl: string, credential: Credential)

  /** The credential chosen from the settings: the first truthy one of
      `clientSecret`, `clientCertificate` and `clientAssertion`. */
  function CredentialOf(settings: Json): (c: Credential)
    ensures Truthy(Prop(settings, "clientSecret")) ==> c == ClientSecret(Prop(settings, "clientSecret").value)
    ensures !Truthy(Prop(settings, "clientSecret")) && Truthy(Prop(settings, "clientCertificate")) ==>
      c == ClientCertificate(Prop(settings, "clientCertificate").value)
    ensures (!Truthy(Prop(settings, "clientSecret")) && !Truthy(Prop(settings, "clientCertificate"))
             && Truthy(Prop(settings, "clientAssertion"))) ==> c == ClientAssertion(Prop(settings, "clientAssertion").value)
    ensures c == NoCredential <==>
      !Truthy(Prop(settings, "clientSecret")) && !Truthy(Prop(settings, "clientCertificate")) && !Truthy(Prop(settings, "clientAssertion"))
  {
    var secret := Prop(settings, "clientSecret");
    var certificate := Prop(settings, "clientCertificate");
    var assertion := Prop(settings, "clientAssertion");
    if Truthy(secret) then ClientSecret(secret.value)
    else if Truthy(certificate) then ClientCertificate(certificate.value)
    else if Truthy(assertion) then ClientAssertion(assertion.value)
    else NoCredential
  }

  /** `format("%s/%s", settings.cloudUrl || "", settings.tenantId)`. */
  function Authority(settings: Json): string {
    var cloud := Prop(settings, "cloudUrl");
    Format("%s/%s", [if Truthy(cloud) then JsString(cloud) else "", JsString(Prop(settings, "tenantId"))])
  }

  function ClientConfigOf(settings: Json): ClientConfig {
    ClientConfig(Prop(settings, "clientId"), Authority(settings), CredentialOf(settings))
  }

  /** `this.config.get(appId).toObject()`: the application's settings as a
      plain object. An application that is not configured throws the strict
      lookup's error; a configured entry that is not an object has no
      `toObject`. */
  function SettingsOf(apps: CfgValue, appId: Json): (r: Result<Json>)
    ensures r.Ok? ==> r.value.JObject?
  {
    match GetOn(apps, [JsString(Some(appId))])
    case Err(e) => Err(e)
    case Ok(got) =>
      if got.One? && got.value.Node? then Ok(ToJson(got.value))
      else Err(Error(TypeError, "toObject is not a function"))
  }

  /** An element of `[cloudUrl, tenantId, path].join("/")`: `undefined` and
      `null` give the empty string. */
  function JoinPart(v: Option<Json>): string {
    if v.None? || v.value == JNull then "" else ValueString(v.value)
  }

  /** The logout URL before `new URL` normalises it: the joined text and
      the `post_logout_redirect_uri` query parameter, if any. */
  datatype LogoutUrl = LogoutUrl(path: string, postLogoutRedirectUri: Option<string>)

  /** The error `new URL(text)` throws for text it cannot parse. */
  const InvalidUrl: Error := Error(TypeError, "Invalid URL")

  const LogoutPath: string := "oauth2/v2.0/logout"

  /** The fields `makeTokenInfo` reads from an authentication result;
      `expiresOnMs` is `expiresOn.getTime()`. */
  datatype AuthResult = AuthResult(
    accessToken: Json, expiresOnMs: int, familyId: Json, account: Json,
    scopes: Json, idToken: Json, tokenType: Json)

  /** The token cache's key for a refresh token, computed by the foreign
      client library from the account's home id and environment, the client
      id and the family id. */
  type CacheKeyFn = (Option<Json>, Option<Json>, Option<Json>, Json) -> string

  /** The refresh token found in the cache: the entry's `secret` when the
      entry is truthy, which is `undefined` (None) when the entry has no
      `secret`; `null` when the entry is missing or falsy. */
  function RefreshTokenOf(cache: map<string, Json>, key: string): (r: Option<Json>)
    ensures !(key in cache && Truthy(Some(cache[key]))) ==> r == Some(JNull)
    ensures key in cache && Truthy(Some(cache[key])) ==> r == Prop(cache[key], "secret")
  {
    if key in cache && Truthy(Some(cache[key])) then Prop(cache[key], "secret")
    else Some(JNull)
  }

  /** The cache key `makeTokenInfo` computes for a result whose account is
      not null. */
  function RefreshKey(clientId: Option<Json>, result: AuthResult, cacheKey: CacheKeyFn): string
    requires result.account != JNull
  {
    cacheKey(Prop(result.account, "homeAccountId"), Prop(result.account, "environment"), clientId, result.familyId)
  }

  /** The six fields of the payload other than the refresh token. */
  const PayloadFields: set<string> := {"accessToken", "expiresOn", "scopes", "idToken", "tokenType", "account"}

  /** `makeTokenInfo(result)`: the payload stored for a token. Destructuring
      the account throws when it is null. A refresh token that is
      `undefined` leaves its key out, as `JSON.stringify` does. */
  function MakeTokenInfo(clientId: Option<Json>, result: AuthResult, cache: map<string, Json>, cacheKey: CacheKeyFn): (r: Result<Json>)
    ensures r.Err? <==> result.account == JNull
    ensures r.Ok? ==>
      var refresh := RefreshTokenOf(cache, RefreshKey(clientId, result, cacheKey));
      && r.value.JObject?
      && r.value.fields.Keys == PayloadFields + (if refresh.Some? then {"refreshToken"} else {})
      && Prop(r.value, "refreshToken") == refresh
      && r.value.fields["expiresOn"] == JNumber(RoundSeconds(result.expiresOnMs))
      && r.value.fields["accessToken"] == result.accessToken
      && r.value.fields["account"] == result.account
  {
    if result.account == JNull then Err(Error(TypeError, "Cannot read properties of null (reading 'homeAccountId')"))
    else
      var fields := map[
        "accessToken" := result.accessToken,
        "expiresOn" := JNumber(RoundSeconds(result.expiresOnMs)),
        "scopes" := result.scopes,
        "idToken" := result.idToken,
        "tokenType" := result.tokenType,
        "account" := result.account];
      match RefreshTokenOf(cache, RefreshKey(clientId, result, cacheKey))
      case Some(token) => Ok(JObject(fields["refreshToken" := token]))
      case None => Ok(JObject(fields))
  }

  /** One configured application with its client. */
  class ApplicationWrapper {
    const id: Json
    const client: ClientConfig
    const clientId: Option<Json>
    const cloudUrl: Option<Json>
    const tenantId: Option<Json>
    const scopes: Option<Json>
    const redirectUri: Option<Json>
    const postLogoutRedirectUri: Option<Json>

    constructor(id: Json, client: ClientConfig, settings: Json)
      ensures this.id == id && this.client == client
      ensures clientId == Prop(settings, "clientId") && cloudUrl == Prop(settings, "cloudUrl")
      ensures tenantId == Prop(settings, "tenantId") && scopes == Prop(settings, "userScopes")
      ensures redirectUri == Prop(settings, "redirectUri")
      ensures postLogoutRedirectUri == Prop(settings, "postLogoutRedirectUri")
    {
      this.id := id;
      this.client := client;
      clientId := Prop(settings, "clientId");
      cloudUrl := Prop(settings, "cloudUrl");
      tenantId := Prop(settings, "tenantId");
      scopes := Prop(settings, "userScopes");
      redirectUri := Prop(settings, "redirectUri");
      postLogoutRedirectUri := Prop(settings, "postLogoutRedirectUri");
    }

    /** `getLogoutUrl()`: the text `cloudUrl/tenantId/oauth2/v2.0/logout`,
      which `new URL` must accept (`parses` is the foreign URL parser's
      verdict), with the redirect parameter added only when configured. */
    function GetLogoutUrl(parses: string -> bool): (r: Result<LogoutUrl>)
      reads this
      ensures var text := JoinPart(cloudUrl) + "/" + JoinPart(tenantId) + "/" + LogoutPath;
        && (r.Err? <==> !parses(text))
        && (r.Err? ==> r.error == InvalidUrl)
        && (r.Ok? ==> r.value.path == text)
      ensures r.Ok? ==> (r.value.postLogoutRedirectUri.Some? <==> Truthy(postLogoutRedirectUri))
      ensures r.Ok? && r.value.postLogoutRedirectUri.Some? ==>
        r.value.postLogoutRedirectUri.value == JsString(postLogoutRedirectUri)
    {
      var text := JoinPart(cloudUrl) + "/" + JoinPart(tenantId) + "/" + LogoutPath;
      if !parses(text) then Err(InvalidUrl)
      else if Truthy(postLogoutRedirectUri) then Ok(LogoutUrl(text, Some(JsString(postLogoutRedirectUri))))
      else Ok(LogoutUrl(text, None))
    }
  }

  /** The application cache over the `apps` section. */
  class ApplicationManager {
    const apps: CfgValue
    var cache: map<Json, ApplicationWrapper>

    constructor(apps: CfgValue)
      ensures this.apps == apps && cache == map[]
    {
      this.apps := apps;
      cache := map[];
    }

    /** `getApplication(appId)`: a cached wrapper is returned as it is;
      otherwise the settings are looked up, a wrapper is built and cached.
      A failed lookup throws and caches nothing. */
    method GetApplication(appId: Json) returns (r: Result<ApplicationWrapper>)
      modifies this
      ensures appId in old(cache) ==> r == Ok(old(cache)[appId]) && cache == old(cache)
      ensures appId !in old(cache) && SettingsOf(apps, appId).Err? ==>
        r == Err(SettingsOf(apps, appId).error) && cache == old(cache)
      ensures appId !in old(cache) && SettingsOf(apps, appId).Ok? ==>
        var settings := SettingsOf(apps, appId).value;
        && r.Ok? && fresh(r.value) && cache == old(cache)[appId := r.value]
        && r.value.id == appId && r.value.client == ClientConfigOf(settings)
        && r.value.tenantId == Prop(settings, "tenantId") && r.value.cloudUrl == Prop(settings, "cloudUrl")
        && r.value.postLogoutRedirectUri == Prop(settings, "postLogoutRedirectUri")
        && r.value.clientId == Prop(settings, "clientId") && r.value.scopes == Prop(settings, "userScopes")
        && r.value.redirectUri == Prop(settings, "redirectUri")
    {
      if appId in cache {
        return Ok(cache[appId]);
      }
      var got := GetOn(apps, [JsString(Some(appId))]);
      if got.Err? {
        return Err(got.error);
      }
      if !got.value.One? || !got.value.value.Node? {
        return Err(Error(TypeError, "toObject is not a function"));
      }
      var settings := ToJson(got.value.value);
      var client := ClientConfig(Prop(settings, "clientId"), Authority(settings), CredentialOf(settings));
      var wrapper := new ApplicationWrapper(appId, client, settings);
      cache := cache[appId := wrapper];
      r := Ok(wrapper);
    }

    /** `clear()`. */
    method Clear()
      modifies this
      ensures cache == map[]
    {
      cache := map[];
    }
  }

  /** The authority is the cloud URL (or nothing) and the tenant id joined
      by one slash. */
  lemma AuthorityShape(settings: Json)
    ensures Authority(settings) ==
      (if Truthy(Prop(settings, "cloudUrl")) then JsString(Prop(settings, "cloudUrl")) else "")
      + "/" + JsString(Prop(settings, "tenantId"))
  {
    var a := if Truthy(Prop(settings, "cloudUrl")) then JsString(Prop(settings, "cloudUrl")) else "";
    var b := JsString(Prop(settings, "tenantId"));
    var f := "%s/%s";
    assert f[0] == '%' && f[1] == 's' && f[2..] == "/%s";
    assert f[2..][0] == '/' && f[2..][1..] == "%s";
    assert f[2..][1..][0] == '%' && f[2..][1..][1] == 's' && f[2..][1..][2..] == "";
    assert Substitute(f[2..][1..], [b]) == b + Substitute("", []);
    assert Substitute(f[2..], [b]) == [f[2..][0]] + Substitute(f[2..][1..], [b]);
    assert Substitute(f, [a, b]) == a + Substitute(f[2..], [b]);
  }

  /** An unknown application id throws the lookup's "is not defined" error. */
  lemma UnknownApplication(context: string, entries: map<string, CfgValue>, appId: Json)
    requires !Has(entries, JsString(Some(appId)))
    ensures SettingsOf(Node(context, entries), appId) == Err(NotDefined(context, JsString(Some(appId))))
  {
  }

  /** Looking up the settings throws only a plain error or a type error. */
  lemma SettingsErrorKinds(apps: CfgValue, appId: Json)
    ensures SettingsOf(apps, appId).Err? ==>
      SettingsOf(apps, appId).error.kind == PlainError || SettingsOf(apps, appId).error.kind == TypeError
  {
  }

  /** An application id that names an inherited property, such as
      `constructor`, passes the lookup and then fails on `toObject`. */
  lemma InheritedApplication(context: string, entries: map<string, CfgValue>, appId: Json)
    requires JsString(Some(appId)) !in entries && JsString(Some(appId)) in InheritedNames
    ensures SettingsOf(Node(context, entries), appId) == Err(Error(TypeError, "toObject is not a function"))
  {
  }

  /** An application whose settings object has its own `constructor` key
      is stored as a plain value by `assign`, which has no `toObject`; if
      the apps section itself has such a key, it has no `get`. Either way
      the lookup throws a type error. */
  lemma OwnConstructorApplication(context: string, apps: map<string, Json>, appId: Json)
    requires var key := JsString(Some(appId)); key in apps && apps[key].JObject? && "constructor" in apps[key].fields
    ensures var r := SettingsOf(Wrap(context, "apps", JObject(apps)), appId);
      && r.Err? && r.error.kind == TypeError
      && ("constructor" !in apps ==> r.error == Error(TypeError, "toObject is not a function"))
  {
    WrapContext(context, "apps", JObject(apps));
    if "constructor" !in apps {
      var key := JsString(Some(appId));
      var ctx := context + "." + "apps";
      WrapContext(ctx, key, apps[key]);
    }
  }

  /** A configured application's settings are its configuration entries
      converted back to a plain object. */
  lemma KnownApplication(context: string, entries: map<string, CfgValue>, appId: Json)
    requires JsString(Some(appId)) in entries && entries[JsString(Some(appId))].Node?
    ensures SettingsOf(Node(context, entries), appId) == Ok(ToJson(entries[JsString(Some(appId))]))
  {
  }

  /** A payload made by `makeTokenInfo` is expired exactly when the rounded
      current second reaches the rounded expiry of the authentication
      result, and it is never expired before the provider's expiry. */
  lemma IssuedTokenExpiry(clientId: Option<Json>, result: AuthResult, cache: map<string, Json>, cacheKey: CacheKeyFn, nowMs: int)
    requires result.account != JNull
    ensures var info := MakeTokenInfo(clientId, result, cache, cacheKey).value;
      && Tokens.ExpiredByDays(info, 0, nowMs) == Ok(RoundSeconds(nowMs) >= RoundSeconds(result.expiresOnMs))
      && (nowMs < result.expiresOnMs - 1000 ==> Tokens.ExpiredByDays(info, 0, nowMs) == Ok(false))
  {
    var info := MakeTokenInfo(clientId, result, cache, cacheKey).value;
    assert Prop(info, "expiresOn") == Some(JNumber(RoundSeconds(result.expiresOnMs)));
  }

  /** Without a cache entry the refresh token is `null`. */
  lemma NoCacheEntryNoRefresh(clientId: Option<Json>, result: AuthResult, cache: map<string, Json>, cacheKey: CacheKeyFn)
    requires result.account != JNull
    requires RefreshKey(clientId, result, cacheKey) !in cache
    ensures MakeTokenInfo(clientId, result, cache, cacheKey).value.fields["refreshToken"] == JNull
  {
  }

  /** A truthy cache entry without a `secret` gives an `undefined` refresh
      token, so the payload has no `refreshToken` key at all. */
  lemma EntryWithoutSecret(clientId: Option<Json>, result: AuthResult, cache: map<string, Json>, cacheKey: CacheKeyFn)
    requires result.account != JNull
    requires var key := RefreshKey(clientId, result, cacheKey);
      key in cache && Truthy(Some(cache[key])) && Prop(cache[key], "secret").None?
    ensures "refreshToken" !in MakeTokenInfo(clientId, result, cache, cacheKey).value.fields
    ensures MakeTokenInfo(clientId, result, cache, cacheKey).value.fields.Keys == PayloadFields
  {
  }

  /** Without a cloud URL the joined text is a path, `/tenant/oauth2/...`.
      Without a base URL, the URL parser refuses a text that starts with a
      slash (after its leading spaces and control characters are stripped,
      the slash is still the first character, and no scheme precedes it),
      so `new URL` throws. */
  lemma LogoutNeedsCloudUrl(w: ApplicationWrapper, parses: string -> bool)
    requires forall t :: |t| > 0 && t[0] == '/' ==> !parses(t)
    requires w.cloudUrl.None? || w.cloudUrl == Some(JNull)
    ensures w.GetLogoutUrl(parses) == Err(InvalidUrl)
  {
    var text := JoinPart(w.cloudUrl) + "/" + JoinPart(w.tenantId) + "/" + LogoutPath;
    assert text[0] == '/';
  }
}
