/** token/token.js: one stored token wrapped for its expiry tests. */
module Tokens {
  import opened Base
  import opened Json
  import opened Helpers

  const DaySeconds: int := 86400

  /** The error `this.tokenInfo.expiresOn` throws when the payload is null. */
  const NullPayload: Error := Error(TypeError, "Cannot read properties of null (reading 'expiresOn')")

  /** The number a relational comparison turns a value into; `None` is NaN,
      against which every comparison is false. `undefined` gives NaN, `null`
      0, booleans 0 and 1. Strings, arrays and objects are taken as NaN. */
  function ToNumber(v: Option<Json>): Option<int> {
    match v
    case None => None
    case Some(j) =>
      match j
      case JNull => Some(0)
      case JBool(b) => Some(if b then 1 else 0)
      case JNumber(n) => Some(n)
      case _ => None
  }

  /** `tokenInfo.expiresOn`, which throws when the payload is null. */
  function ExpiresOn(info: Json): (r: Result<Option<Json>>)
    ensures r.Err? <==> info == JNull
  {
    if info == JNull then Err(NullPayload) else Ok(Prop(info, "expiresOn"))
  }

  /** `now >= tokenInfo.expiresOn + ndays * 86400` at clock reading `nowMs`,
      where `now` is the rounded second. `isExpired()` is the case
      `ndays == 0`. */
  function ExpiredByDays(info: Json, ndays: int, nowMs: int): (r: Result<bool>)
    ensures r.Err? <==> info == JNull
    ensures r.Err? ==> r.error == NullPayload
  {
    match ExpiresOn(info)
    case Err(e) => Err(e)
    case Ok(v) =>
      match ToNumber(v)
      case None => Ok(false)
      case Some(e) => Ok(RoundSeconds(nowMs) >= e + ndays * DaySeconds)
  }

  /** A runtime view of one token record. */
  class Token {
    const id: string
    const appId: Json
    const isUser: Json
    var tokenInfo: Json

    constructor(tokenId: string, appId: Json, isUser: Json, tokenInfo: Json)
      ensures id == tokenId && this.appId == appId && this.isUser == isUser
      ensures this.tokenInfo == tokenInfo
    {
      id := tokenId;
      this.appId := appId;
      this.isUser := isUser;
      this.tokenInfo := tokenInfo;
    }

    /** `isUserToken()`: `!!isUser`. */
    predicate IsUserToken()
    {
      Truthy(Some(isUser))
    }

    /** `getAccessToken()`; reading a field of a null payload throws. */
    function GetAccessToken(): (r: Result<Option<Json>>)
      reads this
      ensures r.Err? <==> tokenInfo == JNull
      ensures r.Ok? ==> r.value == Prop(tokenInfo, "accessToken")
    {
      if tokenInfo == JNull then Err(Error(TypeError, "Cannot read properties of null (reading 'accessToken')"))
      else Ok(Prop(tokenInfo, "accessToken"))
    }

    /** `getRefreshToken()`. */
    function GetRefreshToken(): (r: Result<Option<Json>>)
      reads this
      ensures r.Err? <==> tokenInfo == JNull
      ensures r.Ok? ==> r.value == Prop(tokenInfo, "refreshToken")
    {
      if tokenInfo == JNull then Err(Error(TypeError, "Cannot read properties of null (reading 'refreshToken')"))
      else Ok(Prop(tokenInfo, "refreshToken"))
    }

    /** `isExpired()`. */
    function IsExpired(nowMs: int): (r: Result<bool>)
      reads this
      ensures r == ExpiredByDays(tokenInfo, 0, nowMs)
    {
      match ExpiresOn(tokenInfo)
      case Err(e) => Err(e)
      case Ok(v) =>
        match ToNumber(v)
        case None => Ok(false)
        case Some(e) => Ok(RoundSeconds(nowMs) >= e)
    }

    /** `isExpiredByDays(ndays)`. */
    function IsExpiredByDays(ndays: int, nowMs: int): (r: Result<bool>)
      reads this
      ensures r == ExpiredByDays(tokenInfo, ndays, nowMs)
    {
      ExpiredByDays(tokenInfo, ndays, nowMs)
    }

    /** `refresh(tokenInfo)`: the payload is replaced; id, application and
      user flag are constants of the object. */
    method Refresh(info: Json)
      modifies this
      ensures tokenInfo == info
    {
      tokenInfo := info;
    }
  }

  /** For a payload object whose `expiresOn` is a number `e`, `isExpired()`
      holds exactly when the rounded current second is at least `e`, and
      `isExpiredByDays(n)` exactly when it is at least `e + n * 86400`. */
  lemma ExpiryOfNumber(fields: map<string, Json>, e: int, ndays: int, nowMs: int)
    requires "expiresOn" in fields && fields["expiresOn"] == JNumber(e)
    ensures ExpiredByDays(JObject(fields), 0, nowMs) == Ok(RoundSeconds(nowMs) >= e)
    ensures ExpiredByDays(JObject(fields), ndays, nowMs) == Ok(RoundSeconds(nowMs) >= e + ndays * DaySeconds)
  {
  }

  /** A token past its grace period of `ndays >= 0` days is expired too. */
  lemma GraceImpliesExpired(info: Json, ndays: int, nowMs: int)
    requires ndays >= 0
    requires ExpiredByDays(info, ndays, nowMs) == Ok(true)
    ensures ExpiredByDays(info, 0, nowMs) == Ok(true)
  {
  }

  /** A token that has just expired is not yet past a positive grace period. */
  lemma JustExpiredNotPurged(fields: map<string, Json>, e: int, ndays: int, nowMs: int)
    requires "expiresOn" in fields && fields["expiresOn"] == JNumber(e)
    requires ndays > 0 && e <= RoundSeconds(nowMs) < e + DaySeconds
    ensures ExpiredByDays(JObject(fields), 0, nowMs) == Ok(true)
    ensures ExpiredByDays(JObject(fields), ndays, nowMs) == Ok(false)
  {
  }

  /** Expiry is monotone in time: once expired, a token stays expired. */
  lemma ExpiryMonotone(info: Json, ndays: int, nowMs: int, laterMs: int)
    requires nowMs <= laterMs
    requires ExpiredByDays(info, ndays, nowMs) == Ok(true)
    ensures ExpiredByDays(info, ndays, laterMs) == Ok(true)
  {
    assert RoundSeconds(nowMs) <= RoundSeconds(laterMs);
  }

  /** A payload without a usable `expiresOn` (missing, a string, an object)
      never expires. */
  lemma NoExpiryNeverExpires(info: Json, ndays: int, nowMs: int)
    requires info != JNull
    requires ToNumber(Prop(info, "expiresOn")).None?
    ensures ExpiredByDays(info, ndays, nowMs) == Ok(false)
  {
  }
}
