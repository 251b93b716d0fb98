# Plan: Basic authentication, server-row upsert and Bungee config sync

A Dafny model of three decision and update rules of Plan (Player Analytics):

- **Basic authentication** (`BasicAuthentication.getWebUser`): the Basic scheme of HTTP
  authentication (RFC 7617, section 2). The decoded `user:password` text is tokenized with
  Apache Commons `StringUtils.split(s, ':')`, the database must be `OPEN`, the user must exist,
  and the password must verify against the stored salted hash. Each failed check has its own
  reason. The model is a pure function (`BasicAuthentication.GetWebUser`) over the decoded text,
  the database state, the user query and the password verifier. The tokenizer is a recursive
  function (`StringUtils.Split`). Lemmas state that it splits independently at any separator and
  inverts `Join`.
- **Server-row upsert** (`StoreServerInformationTransaction.performOperations`): an `UPDATE`
  keyed by the server's uuid, then an `INSERT` of the same values only when the update matched
  no row. The server table is a class holding a map from uuid to row, plus the statements run
  against it. The transaction's method is proved against a reference upsert `Upserted`. Lemmas
  about `Upserted` give the frame, the key set, the row count and idempotence.
- **Config sync** (`ConfigurationWebAPI`): the Bukkit receiver's three-way `onRequest` decision,
  written as a pure function. The Bungee sender's `sendRequest` overloads are methods that change
  the `variables` map the `WebAPI` base class sends. `getConfigValues` is a loop over the
  `sameStrings` allow-list. `addServerSpecificValues` holds the empty/zero omission rules. Both
  are proved equal to a reference payload (`Payload`), and lemmas state its meaning one setting at a time.

Inputs the model takes as parameters:
- The Base64-decoded header text (`Base64Util.decode` is not part of this model).
- The database state and the user query `WebUserQueries.fetchWebUser`: a function returning
  `Found`, `NotFound` or `QueryError`.
- `PassEncryptUtil.verifyPassword`: a function returning a verdict or `VerifyError`.
- `Check.isBukkitAvailable`, `Check.isBungeeAvailable` and the `Settings` lookups, as values in
  `ReceiverSettings` and `SenderSettings`.
- The Bungee web server's access address, as a string.

What the code does that a reader of RFC 7617 might not expect:
- The credentials are split by `StringUtils.split`, not at the first colon. Adjacent colons
  collapse, and empty tokens are dropped. So `"u::p"` is user `u` with password `p`, and no
  password containing `:` can ever be verified (`ColonPasswordNeverAccepted`).
- `getWebUser` has no branch for a header that fails to decode.
- Global string settings are left out of the payload only when null. Only the theme and the
  server name are also dropped when empty, and only the web server port is dropped when 0.
- No retry or double-failure path exists for the upsert.

The names of the database states (`CLOSED`, `OPENING`, `OPEN`, `CLOSED_WITH_ERROR`) are stand-ins,
because `Database.java` is not part of this model. The keys the settings travel under (`DB_HOST`,
`THEME_BASE`, ...) are likewise stand-ins for `Settings.getPath()`, because `Settings.java` is not
part of this model. The proofs assume only that these keys are distinct from each other and from
`webAddress` and `accessKey` (`PathInjective`).

## Model

| member | source | states |
|---|---|---|
| StringUtils.Split | Plan/common/src/main/java/com/djrapitops/plan/system/delivery/webserver/auth/BasicAuthentication.java:51 | every token the split yields is non-empty and free of the separator |
| StringUtils.Token | Plan/common/src/main/java/com/djrapitops/plan/system/delivery/webserver/auth/BasicAuthentication.java:51 | a token is a separator-free prefix that stops at the first separator or the end |
| StringUtils.TokenAppend | Plan/common/src/main/java/com/djrapitops/plan/system/delivery/webserver/auth/BasicAuthentication.java:51 | a token stops inside `x` when `x` has a separator, otherwise extends into what follows |
| StringUtils.SplitSingleToken | Plan/common/src/main/java/com/djrapitops/plan/system/delivery/webserver/auth/BasicAuthentication.java:51 | a non-empty separator-free string splits into itself alone |
| StringUtils.SplitAtSeparator | Plan/common/src/main/java/com/djrapitops/plan/system/delivery/webserver/auth/BasicAuthentication.java:51 | split(x + sep + y) is split(x) followed by split(y) |
| StringUtils.SplitPastToken | Plan/common/src/main/java/com/djrapitops/plan/system/delivery/webserver/auth/BasicAuthentication.java:51 | a split emits the leading token, then continues after it |
| StringUtils.SplitLastToken | Plan/common/src/main/java/com/djrapitops/plan/system/delivery/webserver/auth/BasicAuthentication.java:51 | a separator-free `x` before a separator becomes one token |
| StringUtils.SplitJoin | Plan/common/src/main/java/com/djrapitops/plan/system/delivery/webserver/auth/BasicAuthentication.java:51 | split inverts joining non-empty separator-free tokens with one separator |
| StringUtils.SplitSeparatorRun | Plan/common/src/main/java/com/djrapitops/plan/system/delivery/webserver/auth/BasicAuthentication.java:51 | a run of separators yields no token |
| StringUtils.SplitCollapsesRun | Plan/common/src/main/java/com/djrapitops/plan/system/delivery/webserver/auth/BasicAuthentication.java:51-57 | any run of one or more separators acts as a single separator |
| BasicAuthentication.Credentials | Plan/common/src/main/java/com/djrapitops/plan/system/delivery/webserver/auth/BasicAuthentication.java:51-57 | a pair exists iff the split has exactly two tokens, and it is (first token, second token); both are non-empty and colon-free |
| BasicAuthentication.StateName | Plan/common/src/main/java/com/djrapitops/plan/system/delivery/webserver/auth/BasicAuthentication.java:61 | the name of a state is non-empty, made of upper-case letters and `_`, and is `OPEN` exactly for the open state |
| BasicAuthentication.GetWebUser | Plan/common/src/main/java/com/djrapitops/plan/system/delivery/webserver/auth/BasicAuthentication.java:48-76 | not two tokens gives USER_AND_PASS_NOT_SPECIFIED; then a non-OPEN state gives DATABASE_NOT_OPEN with "State was: NAME"; then an absent user gives USER_DOES_NOT_EXIST and a false verdict USER_PASS_MISMATCH, each carrying the user token; success iff two tokens, OPEN, user found and verifier true, returning exactly the fetched record |
| BasicAuthentication.CorrectCredentialsSucceed | Plan/common/src/main/java/com/djrapitops/plan/system/delivery/webserver/auth/BasicAuthentication.java:48-72 | correct "user:password" against an open database returns the fetched user |
| BasicAuthentication.NotSpecifiedWhateverTheState | Plan/common/src/main/java/com/djrapitops/plan/system/delivery/webserver/auth/BasicAuthentication.java:51-54 | without exactly two tokens the result is USER_AND_PASS_NOT_SPECIFIED, whatever the state, query and verifier |
| BasicAuthentication.DatabaseGateBeforeLookup | Plan/common/src/main/java/com/djrapitops/plan/system/delivery/webserver/auth/BasicAuthentication.java:59-65 | with the database not open the outcome is a failure and does not depend on the query or the verifier |
| BasicAuthentication.UnknownUserIsNamed | Plan/common/src/main/java/com/djrapitops/plan/system/delivery/webserver/auth/BasicAuthentication.java:65-66 | for any header whose tokens are (user, password), an absent user gives USER_DOES_NOT_EXIST carrying the user name |
| BasicAuthentication.UnknownUserIsNamedPlain | Plan/common/src/main/java/com/djrapitops/plan/system/delivery/webserver/auth/BasicAuthentication.java:65-66 | the same for the header spelled user:password |
| BasicAuthentication.MismatchIsNamed | Plan/common/src/main/java/com/djrapitops/plan/system/delivery/webserver/auth/BasicAuthentication.java:68-71 | for any header whose tokens are (user, password), a false verdict gives USER_PASS_MISMATCH carrying the user name |
| BasicAuthentication.MismatchIsNamedPlain | Plan/common/src/main/java/com/djrapitops/plan/system/delivery/webserver/auth/BasicAuthentication.java:68-71 | the same for the header spelled user:password |
| BasicAuthentication.ErrorsAreWrapped | Plan/common/src/main/java/com/djrapitops/plan/system/delivery/webserver/auth/BasicAuthentication.java:73-75 | a query or verifier exception becomes a wrapped failure holding its message |
| BasicAuthentication.PairSplits | Plan/common/src/main/java/com/djrapitops/plan/system/delivery/webserver/auth/BasicAuthentication.java:51-57 | user and password joined by one or more colons tokenize as exactly that pair |
| BasicAuthentication.DoubleColonActsAsOne | Plan/common/src/main/java/com/djrapitops/plan/system/delivery/webserver/auth/BasicAuthentication.java:51-57 | "u::p" yields user u, password p and authenticates exactly as "u:p" |
| BasicAuthentication.ColonPasswordNeverAccepted | Plan/common/src/main/java/com/djrapitops/plan/system/delivery/webserver/auth/BasicAuthentication.java:51-71 | if the verifier accepts only a password containing ':', no header succeeds |
| ServerInformation.ServerTable.Execute | Plan/common/src/main/java/com/djrapitops/plan/system/storage/database/transactions/StoreServerInformationTransaction.java:42-44 | UPDATE reports and changes a matching row only; INSERT adds a row only for a new uuid; the statement is logged |
| ServerInformation.StoreServerInformationTransaction.constructor | Plan/common/src/main/java/com/djrapitops/plan/system/storage/database/transactions/StoreServerInformationTransaction.java:36-38 | the transaction keeps the server it was given |
| ServerInformation.StoreServerInformationTransaction.UpdateServerInformation | Plan/common/src/main/java/com/djrapitops/plan/system/storage/database/transactions/StoreServerInformationTransaction.java:47-60 | an UPDATE keyed by the server's uuid binding its name, address, max players and active = true |
| ServerInformation.StoreServerInformationTransaction.InsertServerInformation | Plan/common/src/main/java/com/djrapitops/plan/system/storage/database/transactions/StoreServerInformationTransaction.java:62-73 | an INSERT of the server's uuid with its name, address, max players and active = true |
| ServerInformation.StoreServerInformationTransaction.StatementsBindSameRow | Plan/common/src/main/java/com/djrapitops/plan/system/storage/database/transactions/StoreServerInformationTransaction.java:47-73 | both statements target the server's uuid and bind the same name, address and max players, with active set to true |
| ServerInformation.StoreServerInformationTransaction.PerformOperations | Plan/common/src/main/java/com/djrapitops/plan/system/storage/database/transactions/StoreServerInformationTransaction.java:41-45 | the table becomes the reference upsert; only UPDATE runs if the uuid was present, UPDATE then INSERT otherwise |
| ServerInformation.UpsertStoresServer | Plan/common/src/main/java/com/djrapitops/plan/system/storage/database/transactions/StoreServerInformationTransaction.java:41-73 | afterwards the uuid maps to (name, webAddress, true, maxPlayers) |
| ServerInformation.UpsertFrame | Plan/common/src/main/java/com/djrapitops/plan/system/storage/database/transactions/StoreServerInformationTransaction.java:41-57 | the keys become old keys plus the uuid; every other uuid keeps its row |
| ServerInformation.UpsertRowCount | Plan/common/src/main/java/com/djrapitops/plan/system/storage/database/transactions/StoreServerInformationTransaction.java:41-45 | the row count grows by one exactly when the uuid was new |
| ServerInformation.UpsertLatestWins | Plan/common/src/main/java/com/djrapitops/plan/system/storage/database/transactions/StoreServerInformationTransaction.java:42-44 | a later run for the same uuid overrides an earlier one; running twice equals once |
| ServerInformation.PerformTwice | Plan/common/src/main/java/com/djrapitops/plan/system/storage/database/transactions/StoreServerInformationTransaction.java:42-44 | two runs of the transaction leave the table as one run, the second taking the UPDATE branch |
| Numerals.NatToDigits | Plan/src/main/java/com/djrapitops/plan/system/webserver/webapi/bukkit/ConfigurationWebAPI.java:66 | the digits of a number denote it and have no leading zero |
| Numerals.IntToString | Plan/src/main/java/com/djrapitops/plan/system/webserver/webapi/bukkit/ConfigurationWebAPI.java:66 | a minus sign exactly for negative values, then the digits of the magnitude, with no leading zero except for 0 itself |
| Numerals.IntToStringInjective | Plan/src/main/java/com/djrapitops/plan/system/webserver/webapi/bukkit/ConfigurationWebAPI.java:66 | distinct numbers are sent as distinct texts |
| ConfigurationWebApi.Path | Plan/src/main/java/com/djrapitops/plan/system/webserver/webapi/bukkit/ConfigurationWebAPI.java:73 | a setting's key is non-empty and never `webAddress` or `accessKey`, the variables the request itself carries (that keys are distinct is `PathInverse`) |
| ConfigurationWebApi.ToText | Plan/src/main/java/com/djrapitops/plan/system/webserver/webapi/bukkit/ConfigurationWebAPI.java:66 | a string value is sent as itself; a number as `IntToString` renders it: canonical decimal text whose digits denote it |
| ConfigurationWebApi.NonEmpty | Plan/src/main/java/com/djrapitops/plan/system/webserver/webapi/bukkit/ConfigurationWebAPI.java:106-113 | a value is kept iff it is neither null nor empty, as that text |
| ConfigurationWebApi.PathInverse | Plan/src/main/java/com/djrapitops/plan/system/webserver/webapi/bukkit/ConfigurationWebAPI.java:73 | a setting is recovered from its key |
| ConfigurationWebApi.PathInjective | Plan/src/main/java/com/djrapitops/plan/system/webserver/webapi/bukkit/ConfigurationWebAPI.java:73 | distinct settings have distinct keys, none equal to webAddress or accessKey |
| ConfigurationWebApi.AllSettingsComplete | Plan/src/main/java/com/djrapitops/plan/system/webserver/webapi/bukkit/ConfigurationWebAPI.java:82-94 | the payload's setting list covers every setting |
| ConfigurationWebApi.SameStringExpected | Plan/src/main/java/com/djrapitops/plan/system/webserver/webapi/bukkit/ConfigurationWebAPI.java:83-92 | a sameStrings setting is sent exactly when its value is not null |
| ConfigurationWebApi.PutConcat | Plan/src/main/java/com/djrapitops/plan/system/webserver/webapi/bukkit/ConfigurationWebAPI.java:82-94 | adding two lists of settings in turn equals adding their concatenation |
| ConfigurationWebApi.PutAt | Plan/src/main/java/com/djrapitops/plan/system/webserver/webapi/bukkit/ConfigurationWebAPI.java:71-75 | a listed setting with a present value holds that value; any other key keeps its earlier entry |
| ConfigurationWebApi.PutKeys | Plan/src/main/java/com/djrapitops/plan/system/webserver/webapi/bukkit/ConfigurationWebAPI.java:71-75 | no key other than a setting's path is added |
| ConfigurationWebApi.PutOtherKeys | Plan/src/main/java/com/djrapitops/plan/system/webserver/webapi/bukkit/ConfigurationWebAPI.java:71-75 | a key that is no setting's path keeps exactly its earlier entry, or stays absent |
| ConfigurationWebApi.PayloadAt | Plan/src/main/java/com/djrapitops/plan/system/webserver/webapi/bukkit/ConfigurationWebAPI.java:77-115 | a setting is in the payload iff its value is present, with that value, and every key is some setting's path |
| ConfigurationWebApi.PayloadFixedEntries | Plan/src/main/java/com/djrapitops/plan/system/webserver/webapi/bukkit/ConfigurationWebAPI.java:82-93 | DB_TYPE is always "mysql" and DB_PORT is always the port number |
| ConfigurationWebApi.PayloadSameStrings | Plan/src/main/java/com/djrapitops/plan/system/webserver/webapi/bukkit/ConfigurationWebAPI.java:83-92 | an allow-listed string setting is sent iff non-null, as its value |
| ConfigurationWebApi.PayloadServerSpecific | Plan/src/main/java/com/djrapitops/plan/system/webserver/webapi/bukkit/ConfigurationWebAPI.java:106-114 | theme and server name are sent iff non-null and non-empty, the port iff non-null and non-zero |
| ConfigurationWebApi.SentVariablesAt | Plan/src/main/java/com/djrapitops/plan/system/webserver/webapi/bukkit/ConfigurationWebAPI.java:58-67 | a present setting travels as the text of its value; an omitted key keeps its earlier variable |
| ConfigurationWebApi.ConfigurationWebAPI.OnRequest | Plan/src/main/java/com/djrapitops/plan/system/webserver/webapi/bukkit/ConfigurationWebAPI.java:29-42 | bad request exactly on a non-Bukkit node; variables applied iff Bukkit, copy-config and not override, and then exactly the variables received |
| ConfigurationWebApi.ConfigurationWebAPI.AddVariable | Plan/src/main/java/com/djrapitops/plan/system/webserver/webapi/bukkit/ConfigurationWebAPI.java:51-53 | one variable is set, replacing an earlier value |
| ConfigurationWebApi.ConfigurationWebAPI.SendRequest | Plan/src/main/java/com/djrapitops/plan/system/webserver/webapi/bukkit/ConfigurationWebAPI.java:44-47 | always fails with the illegal-state message and changes no variable |
| ConfigurationWebApi.ConfigurationWebAPI.SendRequestWithAccessKey | Plan/src/main/java/com/djrapitops/plan/system/webserver/webapi/bukkit/ConfigurationWebAPI.java:49-56 | accessKey is set iff given; webAddress is always set; then the payload, or on a non-Bungee node a failure with only those two added |
| ConfigurationWebApi.ConfigurationWebAPI.AddVariables | Plan/src/main/java/com/djrapitops/plan/system/webserver/webapi/bukkit/ConfigurationWebAPI.java:60-67 | every entry of the map becomes a variable holding its text, over the earlier variables, in any iteration order |
| ConfigurationWebApi.ConfigurationWebAPI.SendRequestToServer | Plan/src/main/java/com/djrapitops/plan/system/webserver/webapi/bukkit/ConfigurationWebAPI.java:58-69 | on Bungee the variables become the old ones overlaid by the payload's texts and that request is sent; otherwise a failure with no variable added |
| ConfigurationWebApi.ConfigurationWebAPI.AddConfigValue | Plan/src/main/java/com/djrapitops/plan/system/webserver/webapi/bukkit/ConfigurationWebAPI.java:71-75 | a null value leaves the map unchanged; otherwise the setting's path holds the value and other keys are unchanged |
| ConfigurationWebApi.AddExpected | Plan/src/main/java/com/djrapitops/plan/system/webserver/webapi/bukkit/ConfigurationWebAPI.java:71-75 | adding a setting's expected value is one step of the reference payload |
| ConfigurationWebApi.ConfigurationWebAPI.GetConfigValues | Plan/src/main/java/com/djrapitops/plan/system/webserver/webapi/bukkit/ConfigurationWebAPI.java:77-97 | fails with the WebException message on a non-Bungee node; otherwise returns exactly the reference payload |
| ConfigurationWebApi.ConfigurationWebAPI.AddServerSpecificValues | Plan/src/main/java/com/djrapitops/plan/system/webserver/webapi/bukkit/ConfigurationWebAPI.java:99-115 | adds theme, port and name by the omission rules and leaves the rest of the map |

## Left out

- Base64 decoding (`Base64Util.decode`): the model starts from the decoded text. A malformed header, which would raise an unchecked exception outside the `try`, is not modelled.
- Password hashing (`PassEncryptUtil.verifyPassword`): cryptography. It is an input function that may answer true, false or an error.
- The user query, JDBC statement binding, the SQL text of `ServerTable`, and the commit and rollback of the `Transaction` base class: the table is a map, and "the UPDATE matched a row" means the uuid is a key.
- ServerInformation.ServerTable.Execute: an INSERT for a uuid that is already present is modelled as "no row added" (the uuid column is assumed unique, since `ServerTable` is not part of this model). The rollback such a failure would cause is not modelled, and `PerformOperations` never reaches that case.
- Concurrent registration of one uuid, and retrying after a uniqueness violation: neither is in the code.
- HTTP transport (`WebAPI.sendRequest`, the `badRequest` and `success` response objects, the access address of the Bungee web server): a send returns the request value (address and variables), and the address is an input string.
- ConfigurationWebApi.ConfigurationWebAPI.SendRequestToServer: transport failures of `super.sendRequest` are not modelled. The `Verify.notNull` skip of the loop cannot trigger here, because keys and values are never null in this model.
- `ServerSpecificSettings.updateSettings`: only the variables handed to it are recorded (`ReceiverOutcome.applied`). How the receiver stores them, per server uuid or otherwise, is not part of this model.
- Whether the `WebAPI` base class clears its variable map between sends: `WebAPI.java` is not part of this model. The model keeps earlier variables, as the code of `ConfigurationWebAPI` leaves them.
- `Log` and `ConfigSystem` debug output: logging only.
- The internals of the `Settings` enum: each lookup is an input function returning an optional string or integer.
- Java's 32-bit `int`: ports and max players are unbounded integers. No arithmetic is done on them, so wrap-around cannot arise.
