# graph-layer token broker in Dafny

This project models the core of `@tccl/graph-layer`, a Node.js service. The service brokers Microsoft identity platform tokens for local client processes. Clients connect to a TCP *token endpoint* and exchange line-delimited JSON messages with it:

- `auth` starts a login session and returns the provider's authorization URL.
- `callback` finishes the login. It exchanges the authorization code and stores the token under a fresh token id.
- `check`, `clear` and `userInfo` operate on a stored token.

The tokens live in a SQLite table managed by a token manager. The service also has:

- a configuration tree with strict lookups;
- a key/value `config` table with a schema migration;
- a request logger with retention;
- an application manager, which caches one identity-provider client per configured application.

The model covers these pieces, module by module:

- `Base` (base.dfy): exception kinds, `err.toString()`, `String(n)` and `util.format`
- `Json` (json.dfy): JSON values with the JavaScript coercions the source relies on: truthiness, property reads, `String(v)`, loose equality, `trim`
- `Helpers` (helpers.dfy): src/helpers.js: the `JsonMessage` line framer and `unixtime`
- `Tokens` (token.dfy): src/token/token.js: the `Token` class and its expiry tests
- `TokenStore` (manager.dfy): src/token/manager.js: the token table and `get`/`set`/`update`/`remove`/`cleanup`
- `Configuration` (config.dfy): src/config.js: `ConfigObject` and `Config`
- `Storage` (storage.dfy): src/storage.js: `getConfig`/`setConfig` and the `_checkSchemas` migration
- `Logging` (logger.dfy): src/logger.js: option validation, start/stop gating, `proxy_log` inserts and cleanup
- `Applications` (appmanager.dfy): src/application-manager.js: settings, credentials, authority, logout URL, `makeTokenInfo`, the application cache
- `TokenHandler` (handler.dfy): src/token/handler.js: the connection's buffer and its replies
- `Endpoint` (endpoint.dfy): src/token/endpoint.js: start/stop, the whitelist gate, and the five operations
- `TokenDispatch` (dispatch.dfy): src/token/handler.js: `handle` and `processMessage`
- `LegacyToken` (legacy.dfy): src/token.js: the older endpoint, its handler and its no-op token manager

**How the model is built.**

- **Classes.** State the source updates in place belongs to a class whose methods declare `modifies`. Those classes are the line buffer, the token table, the configuration objects, the storage tables, the logger, the application cache, the written replies, and the endpoint's sessions, gate and timer.
- **Tables.** A SQLite table is a `map` keyed by its unique column.
- **Replies.** What a socket receives is the sequence of strings written to it.
- **Exceptions.** A thrown exception is an `Err` of a `Result`. It carries the exception's kind and message.
- **Foreign values become inputs.** Asynchronous answers from the identity provider are method parameters. So are the clock (`nowMs`), generated ids, and `JSON.parse`/`JSON.stringify` (a `Codec`). Two properties of the codec are assumed where a lemma needs them:
  - `RoundTrips`: parse undoes stringify.
  - `SingleLine`: the serialised text holds no line feed and does not start or end with blank space.
- **Split operations.** An operation that continues in a promise callback is split in two: the synchronous part, and a method for the continuation (`DoCallback` / `CompleteCallback`).

**Behaviour of the code as written.** The model keeps these behaviours, and lemmas state them:

- **The whitelist.** The whitelist conversion loop never converts an entry, because it tests `typeof whitelist === "string"` on the array. The gate compares the configured entries with `sock.remoteAddr`. A Node socket names that property `remoteAddress`, so the compared value is `undefined` (`Endpoint.GateSeesUndefined`).
- **`doCheck` and `doClear`.** Both destructure `tokenInfo` from `tokenManager.get`, but `get` returns `{appId, isUser, token}`. So they always throw before the application or user checks. `Endpoint.CheckNeverFindsToken` shows they end in "no token for session" or in the error of `get` itself.
- **`doUserInfo`.** It always throws:
  - a string `select` is reassigned to a `const`;
  - otherwise it calls `tokenManager.getToken`, which does not exist.
- **`doAuth` and `doCallback`.** `getApplication` never returns a falsy value, so the "No such application" branches are unreachable. An unknown application surfaces as the configuration's "is not defined" error, which is not an `EndpointError`, so `processMessage` rethrows it.
- **Inherited names.** `get` tests `key in this.cfg`, which also finds the members every object inherits, such as "constructor". An application id with such a name passes the lookup, and `.toObject()` on the inherited function throws a TypeError (`Applications.InheritedApplication`). Likewise `assign` nests a value only when its `constructor` is `Object`; a parsed object with its own `constructor` key fails that test and is stored as a plain value, so the application lookup throws a TypeError for it (`Applications.OwnConstructorApplication`).
- **The logout URL.** Without a cloud URL the joined text starts with "/", which `new URL` rejects with "Invalid URL" (`Applications.LogoutNeedsCloudUrl`).
- **The refresh token.** A truthy cache entry without `secret` yields `undefined`, so the stored payload has no `refreshToken` key at all (`Applications.EntryWithoutSecret`).
- **The schema check.** A database that has a config table but no `core.rev` is treated as revision 0, so the check tries to create the config table again and opening fails (`Storage.ConfigWithoutRevisionFails`).
- **The legacy endpoint.**
  - `start` validates nothing and does not test for a running server. Each call that succeeds installs one more connection listener, so an admitted connection gets one handler per installed listener (`LegacyToken.AdmittingAppend`).
  - Its token manager stores nothing.

## Model

| member | source | states |
| `Base.Describe` | src/token/handler.js:60-61 | `err.toString()` is the exception's name, ": ", then its message, which is recoverable as the suffix |
| `Base.FormatNoDirective` | src/token/handler.js:78-80 | `util.format` of a text without `%` and one argument appends the argument after one space |
| `Base.SubstitutePlain` | src/token/handler.js:78-80 | a format without `%` is copied and the arguments follow, each after one space |
| `Base.SubstituteLiteral` | src/token/handler.js:78-80 | a character other than `%` in the format is copied unchanged |
| `Base.NatToString` | src/token/endpoint.js:51-55 | the decimal form of a natural number is a non-empty string of digits |
| `Base.IntToString` | src/token/endpoint.js:51-55 | the text `%d` prints for an integer is a non-empty decimal numeral with a leading minus sign exactly for negative numbers |
| `Json.MissingCases` | src/token/endpoint.js:111-113 | the missing-field test `!v && typeof v !== "string"` holds exactly for undefined, null, false and 0, so an empty string counts as present |
| `Json.LooseEqString` | src/token/handler.js:40-56 | `==` against a string literal is string equality for string values, and null/undefined never equal a string |
| `Json.Prop` | src/token/endpoint.js:111 | a property read gives a value exactly for an object holding the key, and that value; anything else reads `undefined` |
| `Json.TrimStart` | src/helpers.js:34 | only white space is removed from the front, and the result does not start with white space |
| `Json.TrimEnd` | src/helpers.js:34 | only white space is removed from the end, and the result does not end with white space |
| `Json.TrimStartAllSpace` | src/helpers.js:34-39 | trimming the start of a whitespace-only text leaves nothing |
| `Json.TrimEmpty` | src/helpers.js:34-39 | `trim` gives the empty string exactly when the line is all white space |
| `Json.TrimUnchanged` | src/helpers.js:34 | `trim` leaves a line alone whose ends are not white space |
| `Json.IntToStringReadsBack` | src/token/endpoint.js:169 | the string-to-number conversion of loose equality reads every integer's decimal text back as that integer |
| `Json.LooseEqNumberString` | src/token/endpoint.js:169 | a number equals a string iff the string converts to that number, and a boolean equals a string iff the string converts to 1 or 0 |
| `Json.LeadingZeroEquals` | src/token/endpoint.js:169 | `42 == "042"`: leading zeros do not stop the match |
| `Json.TrueEqualsOne` | src/token/endpoint.js:169 | `true == "01"`: a boolean compares as its number |
| `Json.LeadingSpaceIgnored` | src/token/endpoint.js:169 | a leading white space character does not change what a string converts to |
| `Json.FortyTwoText` | src/token/endpoint.js:169 | `"042"` converts to 42 |
| `Helpers.FirstNewline` | src/helpers.js:29-32 | the index of the first line feed; none exactly when the buffer holds no line feed |
| `Helpers.JsonMessage.constructor` | src/helpers.js:8-11 | a new framer has an empty buffer and no message |
| `Helpers.JsonMessage.Receive` | src/helpers.js:13-22 | the chunk is appended, then exactly one framing step runs on the whole buffer |
| `Helpers.JsonMessage.GetMessage` | src/helpers.js:24-26 | returns the last framed message |
| `Helpers.JsonMessage.TryParse` | src/helpers.js:28-56 | the new buffer, the message and the result are those of one framing step |
| `Helpers.NoLineNoChange` | src/helpers.js:29-32 | without a line feed nothing is consumed and the result is false |
| `Helpers.StepBuffer` | src/helpers.js:29-35 | the buffer keeps everything after the first line feed, or all of it when there is none |
| `Helpers.StepMessage` | src/helpers.js:28-55 | the step reports true exactly when it sets a new message, parsed or `false`; otherwise the last message stays |
| `Helpers.FirstLineRemoved` | src/helpers.js:34-35 | exactly the first line and its line feed are removed from the buffer |
| `Helpers.FirstNewlineAfter` | src/helpers.js:29 | in a line, a line feed and the rest, `indexOf("\n")` finds the line feed right after the line |
| `Helpers.SecondLineKept` | src/helpers.js:28-35 | one step consumes one line; a second complete line stays buffered |
| `Helpers.StepKeepsSuffix` | src/helpers.js:28-56 | the new buffer is a suffix of the old one, and only a prefix ending at the first line feed is dropped |
| `Helpers.BlankLineSkipped` | src/helpers.js:37-39 | a whitespace-only line is consumed, the result is false and the message is kept |
| `Helpers.ParsedLine` | src/helpers.js:41-53 | a non-blank line gives true; an object or array becomes the message, anything else sets it to `false` |
| `Helpers.Unixtime` | src/helpers.js:59-62 | the result is the whole second containing the given time, or the current time when none is given |
| `Helpers.RoundSeconds` | src/token/token.js:37 | `Math.round(ms / 1000)`: the nearest second, halves rounded up |
| `Tokens.ExpiresOn` | src/token/token.js:39 | reading `expiresOn` throws exactly when the payload is null |
| `Tokens.ExpiredByDays` | src/token/token.js:42-47 | the expiry test fails exactly on a null payload, with a TypeError |
| `Tokens.Token.constructor` | src/token/token.js:13-18 | the token keeps its id, application, user flag and payload |
| `Tokens.Token.GetAccessToken` | src/token/token.js:28-30 | the payload's `accessToken`; throws exactly on a null payload |
| `Tokens.Token.GetRefreshToken` | src/token/token.js:32-34 | the payload's `refreshToken`; throws exactly on a null payload |
| `Tokens.Token.IsExpired` | src/token/token.js:36-40 | `isExpired()` is the expiry test with a grace of zero days |
| `Tokens.Token.IsExpiredByDays` | src/token/token.js:42-47 | `isExpiredByDays(n)` is the expiry test of the current payload |
| `Tokens.Token.Refresh` | src/token/token.js:49-51 | the payload is replaced by the new one |
| `Tokens.ExpiryOfNumber` | src/token/token.js:36-47 | with a numeric `expiresOn` e, a token is expired iff the rounded second is at least e, and expired by n days iff it is at least e + n·86400 |
| `Tokens.GraceImpliesExpired` | src/token/token.js:36-47 | a token past a non-negative grace period is expired |
| `Tokens.JustExpiredNotPurged` | src/token/token.js:36-47 | a token expired less than a day ago is expired but not past a positive grace period |
| `Tokens.ExpiryMonotone` | src/token/token.js:36-47 | once expired, a token stays expired at every later time |
| `Tokens.NoExpiryNeverExpires` | src/token/token.js:39-46 | a payload without a numeric `expiresOn` never expires, since comparisons with NaN are false |
| `TokenStore.TokenManager.constructor` | src/token/manager.js:13-16 | a new manager has an empty table |
| `TokenStore.TokenManager.Get` | src/token/manager.js:18-45 | the entry of the row for `id`, with its parsed payload; a missing row or an unparseable payload throws |
| `TokenStore.TokenManager.Set` | src/token/manager.js:47-70 | a new id gets one row holding the serialised token, the application and the 0/1 flag; a repeated id violates the unique index and changes nothing |
| `TokenStore.TokenManager.Update` | src/token/manager.js:72-82 | the row for `id` is replaced whether or not it existed, and the arguments are returned |
| `TokenStore.TokenManager.Remove` | src/token/manager.js:84-91 | the row for `id` is deleted and nothing else |
| `TokenStore.TokenManager.RowVerdict` | src/token/manager.js:115-131 | one record is skipped when its value does not parse, purged when its token is 15 days past expiry, and throws on a null payload |
| `TokenStore.TokenManager.Cleanup` | src/token/manager.js:93-139 | the table becomes exactly the rows kept by the 15-day expiry test; when one payload is null the transaction throws and the table is unchanged |
| `TokenStore.GetErrors` | src/token/manager.js:36-42 | `get` of an unknown id throws the destructuring TypeError; `get` of an unparseable row throws "Cannot parse token" |
| `TokenStore.GetAfterWrite` | src/token/manager.js:18-82 | after `set`/`update`, `get(id)` returns exactly what was written, and every other id reads as before |
| `TokenStore.GetAfterRemove` | src/token/manager.js:84-91 | after `remove(id)`, `get(id)` throws and every other id reads as before |
| `TokenStore.PurgedRows` | src/token/manager.js:112-135 | deleting exactly the ids judged for purging, when no row throws, yields the table one cleanup pass specifies |
| `TokenStore.CleanupExactly` | src/token/manager.js:112-135 | a row survives cleanup iff it is kept (it does not parse, or is not yet 15 days past expiry), and it survives unchanged |
| `TokenStore.CleanupThrows` | src/token/manager.js:115-130 | cleanup throws iff some row's payload parses to null |
| `TokenStore.CleanupIdempotent` | src/token/manager.js:93-139 | a second cleanup at the same time deletes nothing |
| `Configuration.FirstMissing` | src/config.js:30-36 | the first key that `in` does not find, counting inherited names as found; none iff `in` finds every key |
| `Configuration.Member` | src/config.js:23-24 | `this.cfg[key]`: an own entry shadows an inherited member of the same name |
| `Configuration.OwnLookup` | src/config.js:18-37 | for keys that are not inherited names, the lookup finds exactly the own entries |
| `Configuration.Lookup` | src/config.js:18-37 | no keys give 0, one key gives its value, several give the values in order; `in` also finds inherited names such as "constructor", whose value is the inherited member; the first key not found throws "<context>.<key> is not defined" |
| `Configuration.GetOn` | src/config.js:18-37 | `.get` on a nested configuration object is its lookup; any other value has no `get` and throws a TypeError |
| `Configuration.ConfigObject.constructor` | src/config.js:13-16 | a new object has its context and no entries |
| `Configuration.ConfigObject.Get` | src/config.js:18-37 | `get(...keys)` is the strict lookup on the object's own entries |
| `Configuration.ConfigObject.ToObject` | src/config.js:39-54 | the plain object has exactly the entries' keys, each converted back recursively |
| `Configuration.ConfigObject.Assign` | src/config.js:56-66 | every key `for…in` visits is overwritten, values whose constructor is `Object` becoming nested objects and everything else (including an object with its own `constructor` key) being stored as it is; other entries stay |
| `Configuration.Config.constructor` | src/config.js:70-72 | a new configuration is an empty object labelled "[Config]" |
| `Configuration.Config.Get` | src/config.js:74-76 | `get` delegates to the root object's lookup |
| `Configuration.Config.Load` | src/config.js:78-96 | the root is replaced by a fresh object labelled with the file name; loading succeeds iff the tree parses and its apps index, and then the root holds the assigned tree |
| `Configuration.Config.Clear` | src/config.js:98-100 | the root is replaced by an empty "[Config]" object |
| `Configuration.IndexById` | src/config.js:85-91 | re-indexing the apps array fails iff it holds a null entry |
| `Configuration.IndexApps` | src/config.js:88-90 | the `forEach` loop builds the same dictionary as the re-indexing function |
| `Configuration.LastAppWins` | src/config.js:88-90 | an id is in the dictionary iff some app has it, and it maps to the last app with that id |
| `Configuration.LastAppAt` | src/config.js:88-90 | each id in the dictionary comes from an app with that id, and no later app has it |
| `Configuration.KeyOfApp` | src/config.js:88-90 | every app's id is a key of the dictionary |
| `Configuration.WrapToJson` | src/config.js:39-66 | converting an assigned value back gives the value |
| `Configuration.AssignToObject` | src/config.js:39-66 | on an empty object, `toObject()` after `assign(vs)` gives back `vs` |
| `Configuration.AssignFrame` | src/config.js:56-66 | keys not visited keep their value; visited keys are replaced, never merged |
| `Configuration.WrapContext` | src/config.js:58-63 | a value is nested iff it is an object without an own `constructor` key; a nested object's context is "<parent context>.<key>" and its keys are those of the plain object; any other value is stored unchanged |
| `Storage.Encode` | src/storage.js:58-68 | a value is serialised iff it is neither a string nor a Buffer |
| `Storage.Storage.constructor` | src/storage.js:32 | the connection holds the database file as it is |
| `Storage.Storage.Open` | src/storage.js:31-34 | `new Storage` opens the file and runs the schema check: a failing check throws and yields no object; otherwise the object holds the checked database |
| `Storage.Storage.GetConfig` | src/storage.js:41-56 | without a config table the query throws a SQLite error; otherwise the stored value decoded: undefined without a row, parsed when serialised, raw otherwise; a bad serialised value throws |
| `Storage.Storage.SetConfig` | src/storage.js:58-75 | without a config table it throws and nothing changes; otherwise `REPLACE INTO`: the key's row becomes the encoded value and other keys stay |
| `Storage.Storage.Exec` | src/storage.js:100 | creating a table that exists throws and changes nothing; otherwise the statement takes effect, a new config table starting empty |
| `Storage.Storage.RunEntry` | src/storage.js:93-105 | one schema entry runs its SQL when introduced at the revision, then its update for it, stopping at the first failure |
| `Storage.Storage.RunRevision` | src/storage.js:92-106 | one revision runs every schema entry in schema order, stopping at the first failure |
| `Storage.Storage.RunPlan` | src/storage.js:91-107 | revisions run in ascending order, stopping at the first failure |
| `Storage.Storage.UpdateSchema` | src/storage.js:90-112 | the transaction runs the plan for revisions `startRev+1..endRev`, then writes `core.rev` iff the revisions differ; a failure rolls the database back and throws |
| `Storage.Storage.CheckSchemas` | src/storage.js:77-115 | the check reads `core.rev` from the object's own database: a SQLite error or falsy value counts as revision 0 and other errors propagate with no change; the schema is then brought up to the current revision, and a failure leaves the database as it was |
| `Storage.ConfigRoundTrip` | src/storage.js:41-75 | `getConfig` after `setConfig` returns the value stored, for strings, Buffers and all JSON values |
| `Storage.PlanMembership` | src/storage.js:90-107 | a statement is executed iff some schema entry introduces it, or updates to it, at a revision in the range |
| `Storage.PlanWitness` | src/storage.js:90-107 | each executed statement comes from some schema entry at some revision in the range |
| `Storage.PlanContains` | src/storage.js:90-107 | each statement a schema entry contributes at a revision in the range is executed |
| `Storage.RevisionMembership` | src/storage.js:92-106 | a statement runs at a revision iff some entry contributes it there |
| `Storage.RevisionWitness` | src/storage.js:92-106 | each statement run at a revision comes from some schema entry |
| `Storage.RevisionContains` | src/storage.js:92-106 | each statement a schema entry contributes at a revision runs at it |
| `Storage.PlanSplits` | src/storage.js:91-107 | lower revisions run before higher ones: the plan for lo..hi is the plan for lo..mid followed by mid+1..hi |
| `Storage.CurrentRevisionNoop` | src/storage.js:91 | when the stored revision is current, no statement runs |
| `Storage.FreshDatabasePlan` | src/storage.js:9-28 | a new database runs the config table with its unique index, then the token table with its unique index |
| `Storage.ExecAllAppend` | src/storage.js:91-107 | running two lists of statements one after the other is running their concatenation, stopping at the first failure |
| `Storage.RevisionSplits` | src/storage.js:92-106 | the statements of a revision are those of the first entries followed by those of the rest |
| `Storage.RevisionFails` | src/storage.js:92-106 | a failure among the first entries of a revision is the failure of the whole revision |
| `Storage.PlanFails` | src/storage.js:91-107 | a failure at one revision is the failure of the whole range |
| `Storage.WriteThenRead` | src/storage.js:41-75 | `getConfig` after `setConfig` returns the value written, and every other key reads as before |
| `Storage.CheckSettles` | src/storage.js:77-115 | after a successful check `core.rev` reads back as the current revision |
| `Storage.CheckIdempotent` | src/storage.js:77-115 | a second check after a successful one executes nothing and changes nothing |
| `Storage.SchemaTables` | src/storage.js:9-28 | the two install statements create the config and the token table |
| `Storage.OpenFresh` | src/storage.js:77-115 | opening an empty database file creates both tables with their indexes and records revision 1 |
| `Storage.ConfigWithoutRevisionFails` | src/storage.js:79-100 | a database with a config table but no `core.rev` counts as revision 0, so creating the config table again throws and the file cannot be opened |
| `Logging.SplitPlus` | src/logger.js:23 | `split("+")` gives at least one part and no part contains "+" |
| `Logging.TrimAll` | src/logger.js:23 | each part is trimmed, in place |
| `Logging.DurationSpec` | src/logger.js:39-47 | an accepted duration is positive; a falsy one gives 30 days; a positive number is kept |
| `Logging.CollectTypes` | src/logger.js:24-33 | the switch loop accepts or rejects the parts as the type-set specification says |
| `Logging.ParseTypeOption` | src/logger.js:21-37 | the type set follows its specification: falsy gives {stdio}, a non-string throws, the parts are validated |
| `Logging.ParseDuration` | src/logger.js:39-47 | the duration follows its specification |
| `Logging.PartsTypesPrefixErr` | src/logger.js:30-32 | the loop stops at the first rejected part; later parts do not matter |
| `Logging.Logger.constructor` | src/logger.js:12-50 | a new logger holds its types, duration and existing rows, with no statement prepared and no timer set |
| `Logging.Logger.Create` | src/logger.js:12-50 | construction succeeds iff both options are valid (types first), with those types and that duration |
| `Logging.Logger.Start` | src/logger.js:52-81 | the insert is prepared iff the logger writes to storage; the timer is set; one cleanup runs at once |
| `Logging.Logger.Stop` | src/logger.js:83-86 | the timer is cleared, the insert dropped, and no row changes |
| `Logging.Logger.ProxyLog` | src/logger.js:94-132 | a row stamped with the request's second is appended iff the logger writes to storage and is started |
| `Logging.Logger.Cleanup` | src/logger.js:134-144 | a storage logger keeps exactly the rows not older than now minus the retention period; others change nothing |
| `Logging.SplitJoin` | src/logger.js:23 | joining the parts with "+" gives back the option string |
| `Logging.PartsTypesAccepts` | src/logger.js:24-33 | the parts are accepted iff each is "storage" or "stdio" |
| `Logging.PartsTypesCollects` | src/logger.js:24-33 | an accepted option yields exactly the types named by its parts |
| `Logging.PartsTypesErr` | src/logger.js:30-32 | a rejected option reports its first part that is not allowed |
| `Logging.RejectedAt` | src/logger.js:24-32 | the part the loop throws on is not on the allow-list, and every part before it is |
| `Logging.TypesNonEmpty` | src/logger.js:21-37 | a logger always has at least one type, and a falsy option gives {stdio} |
| `Logging.RetainedExactly` | src/logger.js:134-144 | a row survives cleanup iff its date is at or after the cutoff |
| `Logging.RetainedTwice` | src/logger.js:134-144 | a later cleanup after an earlier one equals the later one alone |
| `Logging.RetainedAppend` | src/logger.js:134-144 | cleanup acts row by row: cleaning two runs of rows is cleaning each |
| `Logging.RecentRowKept` | src/logger.js:94-144 | a row logged within the retention period survives a cleanup |
| `Applications.CredentialOf` | src/application-manager.js:173-181 | the credential is the first truthy one of secret, certificate and assertion, and none iff all three are falsy |
| `Applications.SettingsOf` | src/application-manager.js:158 | an application's settings are a plain object, or the lookup's exception |
| `Applications.MakeTokenInfo` | src/application-manager.js:92-143 | fails iff the account is null; otherwise the payload has the six fields plus `refreshToken` exactly when the cache yields one (null included), with the access token, the account and the expiry rounded to seconds |
| `Applications.RefreshTokenOf` | src/application-manager.js:129-132 | a missing or falsy cache entry gives null; a truthy one gives its `secret`, undefined when it has none |
| `Applications.ApplicationWrapper.constructor` | src/application-manager.js:15-24 | the wrapper copies the id, client and six settings |
| `Applications.ApplicationWrapper.GetLogoutUrl` | src/application-manager.js:37-51 | `new URL` throws "Invalid URL" exactly when the joined text does not parse; otherwise the path is cloud URL, tenant and "oauth2/v2.0/logout" joined by "/", and the redirect parameter is present iff configured, holding its text |
| `Applications.ApplicationManager.constructor` | src/application-manager.js:147-150 | a new manager has an empty cache |
| `Applications.ApplicationManager.GetApplication` | src/application-manager.js:152-188 | a cached wrapper is returned unchanged; otherwise a new wrapper is built from the settings, with every field the constructor copies, and cached; a failed lookup caches nothing |
| `Applications.ApplicationManager.Clear` | src/application-manager.js:190-192 | the cache is emptied |
| `Applications.AuthorityShape` | src/application-manager.js:160-164 | the authority is the cloud URL (or nothing), "/" and the tenant id |
| `Applications.UnknownApplication` | src/application-manager.js:158 | an application id that is neither configured nor an inherited name throws "is not defined" |
| `Applications.InheritedApplication` | src/application-manager.js:158 | an unconfigured id naming an inherited member, such as "constructor", passes the lookup, and `.toObject()` then throws a TypeError |
| `Applications.OwnConstructorApplication` | src/application-manager.js:158 | an application whose settings object has its own `constructor` key is stored by `assign` as a plain value, so `.toObject()` (or, if the apps section has such a key, `.get`) throws a TypeError |
| `Applications.SettingsErrorKinds` | src/application-manager.js:158 | looking up the settings throws only a plain error or a TypeError |
| `Applications.KnownApplication` | src/application-manager.js:158 | a configured application's settings are its entries as a plain object |
| `Applications.IssuedTokenExpiry` | src/application-manager.js:109-110 | a new payload is expired iff the rounded current second reaches the rounded expiry, and never more than a second before the provider's expiry |
| `Applications.NoCacheEntryNoRefresh` | src/application-manager.js:107-132 | without a cache entry the refresh token is null |
| `Applications.EntryWithoutSecret` | src/application-manager.js:129-142 | a truthy cache entry without a `secret` leaves the payload without a `refreshToken` key |
| `Applications.LogoutNeedsCloudUrl` | src/application-manager.js:38-44 | without a cloud URL the joined text starts with "/", and for any URL parser that refuses such text `new URL` throws "Invalid URL" |
| `TokenHandler.ConnectionHandler.constructor` | src/token/handler.js:16-23 | a handler starts with a fresh, empty line buffer and nothing written |
| `TokenHandler.ConnectionHandler.WriteMessage` | src/token/handler.js:69-76 | exactly one frame, the serialised `{type, value}` and a line feed, is appended |
| `TokenHandler.ConnectionHandler.WriteError` | src/token/handler.js:78-80 | an `error` frame whose value is the formatted message |
| `TokenHandler.FrameReadsBack` | src/token/handler.js:69-76 | a frame read by the protocol's own framer yields the `{type, value}` object and consumes exactly the frame |
| `TokenHandler.FrameIsOneLine` | src/token/handler.js:69-76 | each reply is one line ending in its only line feed |
| `Endpoint.DoUserInfo` | src/token/endpoint.js:290-309 | `doUserInfo` always throws |
| `Endpoint.TokenEndpoint.constructor` | src/token/endpoint.js:23-34 | a new endpoint is not listening, has no gate, no timer and no sessions |
| `Endpoint.TokenEndpoint.Start` | src/token/endpoint.js:36-97 | a second start throws; invalid settings throw with nothing changed; otherwise it listens, installs the gate, sets the timer in milliseconds, and runs one token cleanup whose error propagates |
| `Endpoint.TokenEndpoint.Stop` | src/token/endpoint.js:99-108 | stopping when not listening throws; otherwise gate and timer are removed and sessions kept |
| `Endpoint.TokenEndpoint.Accept` | src/token/endpoint.js:72-90 | a connection gets a handler iff the gate is installed and admits its address |
| `Endpoint.TokenEndpoint.DoAuth` | src/token/endpoint.js:110-148 | a missing appId or failed lookup throws with no session; otherwise one pending session expiring in 3600 s is stored and a redirect (or "Failed to initiate authentication") is written |
| `Endpoint.CallbackCheck` | src/token/endpoint.js:151-171 | the checks pass iff the three fields are present and the session id names a stored session whose application loosely equals the message's; every failure is an endpoint error |
| `Endpoint.TokenEndpoint.DoCallback` | src/token/endpoint.js:151-177 | the checks' first error is thrown; otherwise the application is looked up and the exchange starts with the session and query string |
| `Endpoint.TokenEndpoint.CompleteCallback` | src/token/endpoint.js:179-192 | a successful exchange deletes the session, stores the user token under the new id and replies `complete`; a failed one replies an error and keeps the session |
| `Endpoint.TokenEndpoint.DoCheck` | src/token/endpoint.js:195-208 | `doCheck` throws the session-check error for the current table |
| `Endpoint.TokenEndpoint.DoClear` | src/token/endpoint.js:249-262 | `doClear` throws the same error and removes nothing |
| `Endpoint.TokenEndpoint.SessionToken` | src/token/endpoint.js:195-208 | the field checks, the token lookup and the destructuring end in the session-check error |
| `Endpoint.CheckNeverFindsToken` | src/token/endpoint.js:204-208 | with both fields present and a readable row, the error is "no token for session", whatever the row holds |
| `Endpoint.CheckErrorKinds` | src/token/endpoint.js:195-208 | the only non-endpoint errors are the token lookup's: an unknown id or an unparseable row |
| `Endpoint.UserInfoErrors` | src/token/endpoint.js:290-309 | it throws an endpoint error iff a field is missing or `select` is neither an array nor a string; otherwise a TypeError |
| `Endpoint.StartValidation` | src/token/endpoint.js:41-56 | accepted settings have a non-empty string host, a port in 1..65535 and an interval of at least 1; with all keys present that is also sufficient |
| `Endpoint.GateSeesUndefined` | src/token/endpoint.js:72-86 | because the address read is undefined, a non-empty whitelist admits iff it contains null |
| `Endpoint.GateOfStrings` | src/token/endpoint.js:72-86 | for string entries and a string address, admission is membership |
| `TokenDispatch.ProcessMessage` | src/token/handler.js:39-67 | the replies, sessions and cached applications are those of the chosen operation: `auth` and `callback` with their full effects, `check`/`clear`/`userInfo` with their errors, an endpoint error answered with one "Error: …" reply, any other exception escaping with nothing written; unknown actions get "Message is not understood" |
| `TokenDispatch.RunAuth` | src/token/handler.js:41-43 | the `auth` branch has `doAuth`'s full effect: a missing appId is answered, an unknown application escapes, otherwise a pending session is stored, the application cached and the redirect written |
| `TokenDispatch.RunSessionCheck` | src/token/handler.js:47-52 | `check` and `clear` answer the session's token check through the catch clause, and only replies are written |
| `TokenDispatch.RunCallback` | src/token/handler.js:44-46 | the `callback` branch has `doCallback`'s full effect: a failed check is answered, an unknown application escapes, otherwise the application is cached and the exchange waits for the session that passed |
| `TokenDispatch.RunUnknown` | src/token/handler.js:56-58 | any other action gets one "Message is not understood" reply |
| `TokenDispatch.Settle` | src/token/handler.js:59-66 | a returned operation writes nothing more; an endpoint error is answered and any other error escapes |
| `TokenDispatch.Handle` | src/token/handler.js:25-37 | nothing changes until a line is framed; a framed line has the listener's full effect on replies, sessions and cached applications |
| `TokenDispatch.OnMessage` | src/token/handler.js:28-34 | a framed `false` gets "Protocol error" and nothing else changes; any other message has the full effect of `processMessage` |
| `TokenDispatch.RouteByName` | src/token/handler.js:40-56 | with a string action, each operation is chosen iff the action is its name |
| `TokenDispatch.NoActionNotUnderstood` | src/token/handler.js:39-58 | a message without an action is not understood |
| `TokenDispatch.CaughtReply` | src/token/handler.js:59-66 | an endpoint error is answered with "Error: " and its message; any other error writes nothing and escapes |
| `TokenDispatch.ProcessShape` | src/token/handler.js:39-67 | every message is answered or escapes; an escaping error writes nothing and is never an endpoint error; at most one reply; only `auth` touches the sessions; no cached application is forgotten |
| `TokenDispatch.ExchangeStarts` | src/token/handler.js:44-46 | the code exchange starts exactly for a callback whose checks pass and whose application is known |
| `TokenDispatch.AuthStoresSession` | src/token/endpoint.js:110-148 | `auth` for a known application stores one pending session under the new id, keeps every other session, caches the application and writes the redirect |
| `TokenDispatch.LookupErrorKinds` | src/application-manager.js:152-158 | the application lookup never throws an endpoint error |
| `TokenDispatch.UnknownApplicationEscapes` | src/token/handler.js:59-66 | `auth` or `callback` for an application that is neither cached nor configured escapes with the lookup's error, writing and changing nothing |
| `TokenDispatch.CallbackOutcomes` | src/token/handler.js:44-46 | a passing callback for a known application starts the exchange with the session and query string, writing nothing; a failed check is answered with "Error: " and its message |
| `LegacyToken.LegacyTokenManager.constructor` | src/token.js:233-236 | the manager keeps its configuration |
| `LegacyToken.LegacyTokenManager.Get` | src/token.js:238-240 | `get` returns undefined |
| `LegacyToken.LegacyTokenManager.Set` | src/token.js:242-244 | `set` changes nothing |
| `LegacyToken.Admitting` | src/token.js:96-114 | at most one handler per installed listener |
| `LegacyToken.LegacyEndpoint.constructor` | src/token.js:69-76 | no listener and no sessions |
| `LegacyToken.LegacyEndpoint.Start` | src/token.js:78-117 | a lookup error throws with nothing installed; otherwise one more listener with the whitelist is installed, with no check for a running server |
| `LegacyToken.LegacyEndpoint.Stop` | src/token.js:119-122 | every listener is removed and sessions are kept |
| `LegacyToken.LegacyEndpoint.Accept` | src/token.js:96-114 | the number of handlers created is the number of listeners whose whitelist admits the address |
| `LegacyToken.LegacyEndpoint.DoAuth` | src/token.js:124-168 | a missing appId or unknown application is answered and creates no session; otherwise a pending session is stored and a redirect or error is written |
| `LegacyToken.CallbackVerdict` | src/token.js:170-195 | the checks pass iff appId, sessionId and code are present and the session exists with a loosely equal application |
| `LegacyToken.LegacyEndpoint.DoCallback` | src/token.js:170-211 | every failed check is answered with its reply and changes no session; otherwise the exchange starts |
| `LegacyToken.LegacyEndpoint.CompleteCallback` | src/token.js:213-225 | success deletes the session and replies `complete` with the new id; failure replies an error and keeps it |
| `LegacyToken.RunAuth` | src/token.js:40-42 | the `auth` branch has the legacy `doAuth`'s full effect on replies and sessions |
| `LegacyToken.RunCallback` | src/token.js:43-45 | the `callback` branch has the legacy `doCallback`'s full effect: the check's reply, the unknown-application reply, or the waiting exchange |
| `LegacyToken.ProcessMessage` | src/token.js:39-49 | the replies and sessions are those of the chosen operation: `auth` and `callback` with their full effects, every failure answered by its own reply; everything else is "Message is not understood" |
| `LegacyToken.Handle` | src/token.js:25-37 | nothing changes until a line is framed; a framed line has the legacy listener's full effect on replies and sessions |
| `LegacyToken.OnMessage` | src/token.js:28-34 | a framed `false` gets "Protocol error" and no session changes; any other message has the full effect of the legacy `processMessage` |
| `LegacyToken.RouteAgrees` | src/token.js:39-49 | auth and callback are routed exactly as by the current handler |
| `LegacyToken.CheckNotUnderstood` | src/token.js:39-49 | a `check` request is not understood by the legacy handler, unlike the current one |
| `LegacyToken.LegacyAnswersOnce` | src/token.js:39-49 | every message not handed to the provider gets exactly one reply, a waiting exchange none; only `auth` changes the sessions; the exchange starts iff a callback passes its checks and its application is found |
| `LegacyToken.LegacyCallbackReplies` | src/token.js:170-205 | a rejected callback is answered with the check's reply text; an accepted one whose application is not found names the application |
| `LegacyToken.AuthAgrees` | src/token.js:124-168 | for an `auth` whose application both handlers find, the legacy and the current handler store the same session and write the same reply |
| `LegacyToken.AdmittingAppend` | src/token.js:96-116 | each `start` adds one listener, which counts separately for every connection |
| `LegacyToken.AdmittingBound` | src/token.js:96-114 | every listener creates a handler iff every whitelist admits the address |

## Left out

- Sockets, `net.Server` and `listen`. Replies are recorded, not sent. `listening` becomes true at once, where Node sets it asynchronously. The socket timeout and `listen`'s own port checks are not modelled.
- The identity provider (MSAL) is not modelled. `getAuthCodeUrl` and `acquireTokenByCode` become an input outcome. The token cache key function and the cache contents are inputs. `acquireTokenByRefreshToken`, `acquireTokenByUsernamePassword` and `getAuthCodeUrl` of the wrapper are left out, because they only forward to the provider.
- `handleError` is left out. It logs, then calls `isFatalError`, which helpers.js does not export, so the call throws inside a promise callback. Only the reply written before that call is modelled.
- The continuations of `doCheck` and `doClear` after the first throw are left out, because they cannot be reached (src/token/endpoint.js:210-246 and 264-287). So is everything in `doUserInfo` after the throw.
- The whitelist's CIDR conversion is not modelled: its loop never converts an entry.
- `Endpoint.DecimalArg` and `Tokens.ToNumber` treat strings, arrays and objects as NaN. JavaScript would convert numeric strings and one-element arrays to numbers.
- JSON numbers are integers. Floating point is not modelled.
- `util.format` of an object with `%s` uses `util.inspect`, which is not modelled. Objects print as "[object Object]".
- `Applications.ApplicationManager.GetApplication` keys its cache by JSON value. JavaScript's `Map` compares objects by identity, so an object application id never hits the cache there.
- `Storage.StartRev` treats a stored `core.rev` string as non-numeric. JavaScript would concatenate a numeric string with 1 in the loop.
- Buffers stored by other writers with `is_serialized = 1` are not modelled. The Buffer-to-string decoding before `JSON.parse` is not modelled either.
- `TokenStore.TokenManager.Get` keys the table by the id's string form. SQLite's binding of non-string ids is not modelled.
- `Logging.Logger.Cleanup` compares entry dates as whole seconds. SQLite compares `datetime` strings, which order the same way.
- Console output of the logger (`errorLog`, the stdio line of `proxyLog`) is not modelled.
- `Logging.Logger.Create` takes the `logging` section as a value. Reading it from the service's configuration is the caller's job.
- `LegacyToken.LegacyEndpoint.DoAuth` and `DoCallback` take the application lookup as an input, because the configuration classes of src/config.js have no `getApplication`. With those classes the call throws a TypeError, which this model does not follow.
- `LegacyToken.LegacyEndpoint.Start` does not model `listen` itself. Node's `listen` on a server that is already listening throws `ERR_SERVER_ALREADY_LISTEN` after the new connection listener has been installed; the model only records the listener.
- `Json.StringToInteger` works on unbounded integers. JavaScript converts strings to double-precision numbers, so huge exponents give Infinity and long digit runs lose precision; fractions and exponents that leave no integer count as no match here.
- `Configuration.ConfigObject.Assign` treats `__proto__` as an ordinary key. In JavaScript, assigning it replaces the object's prototype.
- `Configuration.ToJson` of an inherited member stands as `null`. JavaScript would give the function itself, which `JSON.stringify` drops.
- SQL is not interpreted beyond recognising which table a `CREATE TABLE` statement creates. Index statements and updates only count as executed.
- The URL normalisation and query encoding of `new URL` and `searchParams.set` in `getLogoutUrl` are not modelled. Whether a text parses is an input; the result is the joined text and the optional redirect parameter.
- Process exit and the service wiring (src/main.js, src/server.js) are not modelled.
