# php-vault in Dafny

This project models the core of `technicalguru/php-vault`. The library gives a PHP
application one interface for reading secrets (database credentials and the like)
from three kinds of vault:

- a **MemoryVault**, whose secrets are given in its configuration;
- a **FileVault**, which reads a JSON secrets file on a request while its table is
  still empty (in PHP terms, loosely NULL);
- a **HashicorpVault**, a client of the Hashicorp Vault HTTP API. It logs in with
  AppRole credentials (`roleId`, `secretId`) and keeps the token in a JSON
  **Cache** file shared between processes. It renews the token before it runs out
  or drops it once expired, and memoizes every secret it fetched (and every failed
  answer) per path.

A **Secret** wraps the `data` and `metadata` of one vault entry. A
**SecretProvider** asks a vault for one path the first time a key is read, and
answers from that secret (or from the remembered failure) from then on. A
**CredentialsProvider** is a SecretProvider that reads a username and a password
under configurable keys. The **VaultFactory** builds a vault from a `type` string
and a configuration. **BaseVault** holds what every vault shares: the logger with
its `[ShortName]` prefix and `cleanObject`, which copies an object before it is logged and
redacts every username, password, `passwd`, `client_token` and `accessor` property, and every
property whose name contains `pass`.

## How the model is laid out

| module (file) | what it holds |
|---|---|
| `PhpValues` (php_values.dfy) | PHP values: NULL, booleans, integers, strings, ordered arrays and objects as property lists; loose comparison with NULL, truthiness, `trim`, property assignment and `unset`, and the `json_decode(json_encode(..))` round trip |
| `Commons` (commons.dfy) | the `VAULT_*` error codes, `VaultException` as a `VaultError` value, and `Result` |
| `Secrets`, `SecretTables` (secret.dfy, secret_table.dfy) | the Secret object, and the path-to-Secret tables of the memory and file vaults |
| `BaseVaults` (base_vault.dfy) | `cleanObject`, the logger prefix, and the logging methods |
| `MemoryVaults`, `FileVaults` | the two local vaults as classes |
| `Tokens`, `Configs`, `Caches` | the Hashicorp token, configuration and token cache |
| `HashicorpRules` (hashicorp_rules.dfy) | the pure decisions of the Hashicorp client: URL and headers, expiry and renewal, unwrapping an answer, status codes and the `dieOn` message |
| `HashicorpVaults` (hashicorp_vault.dfy) | the Hashicorp client as a class whose methods update token, memo, cache and request trace |
| `SecretProviders`, `LegacySecretProviders`, `CredentialsProviders` | the lazy providers, in the current and in the legacy namespace |
| `VaultFactories` (vault_factory.dfy) | `VaultFactory::create` and `createVault` |

Code that mutates objects in the source is modelled as classes with `modifies`
clauses: the vaults, the cache, the config, the providers and the logger state.
Pure decisions are modelled as functions. Each class method is tied by its
`ensures` to these functions; the lemmas state what the functions promise.

What the program gets from outside is passed in as parameters:

- the clock, `date(DATE_ATOM)` and `json_encode` come in an `Env` value;
- the HTTP server is a function from the request's ordinal and the request to what
  cURL reports;
- the secrets file is read as an `Option` of its decoded contents;
- the cache file is a `CacheFile` value, plus a flag saying whether it is writable;
- the vault behind a provider is the `Result` its `getSecret` returns on that call.

## Model

| member | source | states |
|---|---|---|
| PhpValues.SetLookup | src/TgVault/Secret.php:23-28 | after `$o->k = v`, `k` reads `v` and every other property reads as before |
| PhpValues.UnsetLookup | src/TgVault/Hashicorp/Cache.php:90-96 | after `unset($o->k)`, `k` is absent and every other property is unchanged |
| PhpValues.AssignAllLookup | src/TgVault/Secret.php:23-28 | after a `foreach` assigning a table with distinct keys, each of its keys reads its value from the table and every other key keeps its old value |
| PhpValues.AssignField | src/TgVault/Hashicorp/Cache.php:80-84 | assigning a property of an object updates that object; a non-object that PHP does not promote to an object is left unchanged |
| PhpValues.AssignFieldGet | src/TgVault/Hashicorp/Cache.php:80-84 | on an object or a NULL/false/"" value, the assigned property reads the new value and the others read as before |
| PhpValues.Trim | src/TgVault/Hashicorp/Config.php:69-74 | `trim` yields "" exactly when every character is whitespace; a non-empty result starts and ends with a non-whitespace character |
| PhpValues.JsonRoundTrip | src/TgVault/Secret.php:24-25 | the JSON round trip keeps NULL and the scalars, and keeps an object's property names |
| PhpValues.JsonRoundTripLookup | src/TgVault/Secret.php:24-25 | reading a key after the round trip reads the round-tripped value under that key |
| PhpValues.JsonRoundTripField | src/TgVault/Hashicorp/Cache.php:32-44 | reading a property of a round-tripped object reads the round-tripped property |
| PhpValues.IntOfIntToString | src/TgVault/Hashicorp/HashicorpVault.php:234-235 | a string spelling an integer, such as a configured `maxTtl` of "3600", is read in arithmetic as that integer |
| Secrets.Secret.Get | src/TgVault/Secret.php:40-43 | `get` yields non-NULL only when `data` is an object |
| Secrets.Secret.Keys | src/TgVault/Secret.php:49-51 | `keys` lists something exactly when `data` is an object |
| Secrets.KeysListGettable | src/TgVault/Secret.php:40-51 | `keys` lists a name exactly when `data` has that property, `get` of a listed name reads that property's value, and no name is listed twice when `data` has distinct names |
| Secrets.Secret.Meta | src/TgVault/Secret.php:57-59 | `getMeta` reads the `metadata` property: NULL exactly when it is not set, its value when it is there |
| Secrets.Stored | src/TgVault/Secret.php:24-28 | a non-array value is stored unchanged; a stored value is NULL exactly when the input was NULL |
| Secrets.StoredEntriesLookup | src/TgVault/Secret.php:23-28 | a key of the input reads back as its stored (json round-tripped) value and a key not in the input is absent |
| Secrets.NewSecret | src/TgVault/Secret.php:20-33 | the loop-built Secret equals the Secret the specification function `SecretOf` describes |
| Secrets.SecretOfProps | src/TgVault/Secret.php:20-29 | built from an object or array, each input key holds its stored value, `metadata` and `data` default to NULL, and no other property exists |
| Secrets.SecretGet | src/TgVault/Secret.php:40-43 | `get(k)` reads `k` of the stored `data` entry; `getMeta` reads the stored `metadata` |
| Secrets.SecretOfScalar | src/TgVault/Secret.php:30-32 | built from a scalar or NULL, nothing can be read, `keys` has nothing to list, and there is no metadata |
| Secrets.ConstructFromObject | tests/TgVault/SecretTest.php:14-25 | the object from the test reads back `value1` and `value2` |
| Secrets.StoredSample | tests/TgVault/SecretTest.php:27-41 | the test's `data` array becomes an object that still maps `key1` and `key2` |
| Secrets.ConstructFromArray | tests/TgVault/SecretTest.php:27-41 | the nested arrays from the test read back `value1` and `value2` |
| SecretTables.WrapReads | src/TgVault/Memory/MemoryVault.php:34-36 | a table entry wrapped as `data` reads its own keys (an array after the JSON round trip, a list reading nothing) and has no metadata |
| SecretTables.DataKeys | src/TgVault/Memory/MemoryVault.php:34-36 | the table has a path exactly when the configuration names it |
| SecretTables.DataGet | src/TgVault/Memory/MemoryVault.php:34-36 | with distinct paths, each path holds the configured value |
| SecretTables.TableStep | src/TgVault/Memory/MemoryVault.php:34-36 | one loop step adds (or overwrites) exactly the entry for its path |
| SecretTables.BuildTable | src/TgVault/Memory/MemoryVault.php:34-36 | the loop builds the table the specification function `TableOf` describes |
| SecretTables.FindTable | src/TgVault/Memory/MemoryVault.php:45-50 | a lookup succeeds exactly for configured paths and yields that path's Secret; otherwise it fails with "Secret not available" (VAULT_ERR_NOT_FOUND) |
| BaseVaults.CleanObject | src/TgVault/BaseVault.php:132-160 | a loosely NULL value becomes NULL, another non-object is returned as is, an object stays an object |
| BaseVaults.CleanValue | src/TgVault/BaseVault.php:140-155 | a non-object under a sensitive name becomes `***REDACTED***`; under any other name it is kept |
| BaseVaults.CleanProps | src/TgVault/BaseVault.php:138-157 | the copy keeps every property name in order |
| BaseVaults.CleanPropsAt | src/TgVault/BaseVault.php:138-157 | each property of the copy is the cleaned value of the original property |
| BaseVaults.CleanObjectScrubbed | src/TgVault/BaseVault.php:132-160 | at every depth of the result, no sensitive name holds anything but the redaction mark or an object |
| BaseVaults.CleanObjectCopy | src/TgVault/BaseVault.php:132-160 | an object is copied property by property, with the same names and no duplicates |
| BaseVaults.CleanObjectField | src/TgVault/BaseVault.php:132-160 | a property of the copy reads the cleaned original; an absent name reads NULL |
| BaseVaults.CleanObjectWellFormed | src/TgVault/BaseVault.php:132-160 | cleaning keeps objects free of duplicate names at every depth |
| BaseVaults.CleanObjectFixpoint | src/TgVault/BaseVault.php:132-160 | an object is left unchanged by cleaning exactly when it is already scrubbed |
| BaseVaults.CleanObjectIdempotent | src/TgVault/BaseVault.php:132-160 | cleaning twice is cleaning once |
| BaseVaults.PrefixOf | src/TgVault/BaseVault.php:117-123 | the prefix is the short class name in brackets followed by a space |
| BaseVaults.UnimplementedSecret | src/TgVault/BaseVault.php:31-33 | the base `getSecret` always fails with an internal error and no details |
| BaseVaults.BaseVault.constructor | src/TgVault/BaseVault.php:20-22 | a new vault has its logger, no cached prefix and an empty log |
| BaseVaults.BaseVault.SetLogger | src/TgVault/BaseVault.php:40-42 | only the logger changes |
| BaseVaults.BaseVault.LoggerPrefix | src/TgVault/BaseVault.php:117-123 | the prefix is computed once and cached |
| BaseVaults.BaseVault.Log | src/TgVault/BaseVault.php:50-110 | with the library's logger, one entry is appended with the prefixed message and a cleaned context; with no logger nothing is logged; the log stays scrubbed |
| MemoryVaults.MemoryVault.constructor | src/TgVault/Memory/MemoryVault.php:27-37 | the vault holds one Secret per configured path |
| MemoryVaults.MemoryVault.GetSecret | src/TgVault/Memory/MemoryVault.php:45-50 | succeeds exactly for a configured path, with the wrapped configured value; otherwise fails with VAULT_ERR_NOT_FOUND |
| MemoryVaults.NewMemoryVault | src/TgVault/Memory/MemoryVault.php:27-37 | a loosely NULL configuration fails with VAULT_ERR_CONFIG_EMPTY; any other builds the vault from its `secrets` entry |
| MemoryVaults.SampleReads | tests/TgVault/Memory/MemoryVaultTest.php:14-37 | the test configuration yields `value-1-1` and `value-1-2` under `path/to/secret1` |
| FileVaults.FileVault.constructor | src/TgVault/File/FileVault.php:30-37 | a new vault has its file name and no secrets loaded |
| FileVaults.FileVault.Load | src/TgVault/File/FileVault.php:42-57 | loaded secrets are kept; a missing file fails with VAULT_ERR_FILE_NOT_FOUND; a readable file fills the table from its `secrets` object |
| FileVaults.FileVault.GetSecret | src/TgVault/File/FileVault.php:65-71 | loads first, then succeeds only for a path in the file, with that path's wrapped value, and fails with VAULT_ERR_NOT_FOUND otherwise |
| FileVaults.NewFileVault | src/TgVault/File/FileVault.php:30-37 | a loosely NULL configuration fails with VAULT_ERR_CONFIG_EMPTY, a scalar fails with VAULT_ERR_CONFIG, an object or array succeeds with its `filename` |
| Tokens.Masked | src/TgVault/Hashicorp/Token.php:59-66 | only the first and last three characters of the token survive around the mask |
| Tokens.NewToken | src/TgVault/Hashicorp/Token.php:31-45 | the constructed token equals the specification function `TokenOf` |
| Tokens.StepCreation | src/TgVault/Hashicorp/Token.php:35-37 | the creation-time step of the constructor as `WithCreation` |
| Tokens.StepExpiry | src/TgVault/Hashicorp/Token.php:38-40 | the expiry-time step of the constructor as `WithExpiry` |
| Tokens.StepExpiryString | src/TgVault/Hashicorp/Token.php:41-43 | the expiry-string step of the constructor as `WithExpiryString` |
| Tokens.CopyFields | src/TgVault/Hashicorp/Token.php:32-34 | the copy loop produces `Fields(data)` |
| Tokens.DeclaredGet | src/TgVault/Hashicorp/Token.php:10-29 | every declared property starts as NULL |
| Tokens.FieldsGet | src/TgVault/Hashicorp/Token.php:32-34 | after the copy loop each key reads what the server answered |
| Tokens.CreationTimeOf | src/TgVault/Hashicorp/Token.php:35-37 | the creation time is always set |
| Tokens.ExpiryTimeOf | src/TgVault/Hashicorp/Token.php:38-40 | the expiry time is unset exactly when neither `expiryTime` nor `lease_duration` was answered |
| Tokens.ExpiryStringOf | src/TgVault/Hashicorp/Token.php:41-43 | the expiry string is unset exactly when none was answered and there is no expiry time |
| Tokens.CompletedGet | src/TgVault/Hashicorp/Token.php:31-45 | `now` is the construction time, the three timing fields default as above, every other property is untouched |
| Tokens.TokenOfGet | src/TgVault/Hashicorp/Token.php:31-45 | a token built from an answer keeps every answered property and defaults the timing fields |
| Tokens.TokenOfSettled | src/TgVault/Hashicorp/Token.php:31-45 | a built token has distinct property names and its timing fields are all settled |
| Tokens.TokenRebuild | src/TgVault/Hashicorp/HashicorpVault.php:245-250 | a token rebuilt from its own copy keeps every property; only `now` moves |
| Tokens.TokenRebuildFromFile | src/TgVault/Hashicorp/HashicorpVault.php:245-250 | a token rebuilt from the JSON cache file keeps every property up to the round trip; only `now` moves |
| Tokens.GrantedLifetime | src/TgVault/Hashicorp/Token.php:38-53 | a token with a lease and no expiry of its own expires `lease` seconds after creation, and is live at creation exactly when the lease exceeds the 5-second margin |
| Tokens.InfoHidesToken | src/TgVault/Hashicorp/Token.php:59-66 | two tokens differing only in the masked middle of `client_token` log the same info |
| Configs.DefaultsGet | src/TgVault/Hashicorp/Config.php:42-48 | each key reads its documented default |
| Configs.CheckError | src/TgVault/Hashicorp/Config.php:69-74 | a failed check raises VAULT_ERR_CONFIG |
| Configs.CheckCredentials | src/TgVault/Hashicorp/Config.php:58-60 | the credentials pass exactly when `roleId` and `secretId` are non-blank strings |
| Configs.Validate | src/TgVault/Hashicorp/Config.php:58-60 | the configuration passes exactly when `uri` and both credentials are non-blank strings |
| Configs.Config.SetVaultCredentials | src/TgVault/Hashicorp/Config.php:81-86 | both credentials are replaced and then checked |
| Configs.NewConfig | src/TgVault/Hashicorp/Config.php:39-61 | construction fails exactly when `ConfigOf` refuses, with its error; otherwise the config holds the defaults with the overrides |
| Configs.CopyOverrides | src/TgVault/Hashicorp/Config.php:50-55 | the copy loop produces the defaults overridden by the given values |
| Configs.ConfigEmpty | src/TgVault/Hashicorp/Config.php:40 | the configuration is refused as empty exactly when it is loosely NULL |
| Configs.ConfigAccepted | src/TgVault/Hashicorp/Config.php:39-61 | a configuration is accepted exactly when `uri`, `roleId` and `secretId` are non-blank strings; the first failing one names the error |
| Configs.ConfiguredGet | src/TgVault/Hashicorp/Config.php:42-55 | every supplied key overrides its default, every other key keeps it |
| Configs.CredentialsGet | src/TgVault/Hashicorp/Config.php:81-86 | only the two credentials change |
| Caches.LoadFrom | src/TgVault/Hashicorp/Cache.php:32-44 | loaded data is kept; no cache file, or a missing one, gives an empty object; an empty file ("" or "0") gives an empty object; any other readable file gives its decoded contents; an unreadable one leaves the data as it was |
| Caches.Saved | src/TgVault/Hashicorp/Cache.php:50-60 | a save writes the data as JSON |
| Caches.SavedLoads | src/TgVault/Hashicorp/Cache.php:32-60 | a fresh cache loads what was saved, up to the JSON round trip, and never reads it as empty |
| Caches.ReadErrors | src/TgVault/Hashicorp/Cache.php:36-37 | the read error is logged exactly when the read fails and there is a logger |
| Caches.WriteErrors | src/TgVault/Hashicorp/Cache.php:51-56 | the write error is logged exactly when a write is due, the file is not writable, and there is a logger |
| Caches.SetReadBack | src/TgVault/Hashicorp/Cache.php:80-84 | a value set under a key reads back from the saved file under that key; every other key is unchanged |
| Caches.Cache.constructor | src/TgVault/Hashicorp/Cache.php:24-27 | a new cache has nothing loaded and no errors |
| Caches.Cache.LogError | src/TgVault/Hashicorp/Cache.php:36-37 | a message is recorded only when there is a logger |
| Caches.Cache.Load | src/TgVault/Hashicorp/Cache.php:32-44 | the data becomes `LoadFrom` of the old state, with the read error logged when due |
| Caches.Cache.Save | src/TgVault/Hashicorp/Cache.php:50-60 | succeeds exactly when a write is due and the file is writable, and then the file holds the data |
| Caches.Cache.Get | src/TgVault/Hashicorp/Cache.php:67-73 | loads, then reads the key (NULL when absent); a failed read is reported to the logger the cache had, and the logger stays |
| Caches.Cache.Set | src/TgVault/Hashicorp/Cache.php:80-84 | loads, assigns the key and saves |
| Caches.Cache.Delete | src/TgVault/Hashicorp/Cache.php:90-96 | loads; a set key is removed and saved; an absent key changes nothing |
| Caches.Cache.SetLogger | src/TgVault/Hashicorp/Cache.php:102-104 | only the logger changes |
| Caches.SetGet | src/TgVault/Hashicorp/Cache.php:80-84 | after `set`, the key reads the new value and every other key is unchanged |
| Caches.DeleteGet | src/TgVault/Hashicorp/Cache.php:90-96 | after `delete`, the key reads NULL and every other key is unchanged |
| HashicorpRules.CurlResult | src/TgVault/Hashicorp/HashicorpVault.php:387-414 | a failed request keeps only URL and error; a completed one holds the decoded JSON or the raw text |
| HashicorpRules.ResponseObject | src/TgVault/Hashicorp/HashicorpVault.php:387-407 | the result object always holds the effective URL, the cURL error number and message; the HTTP status, content type and data are present exactly when cURL succeeded, and read back as the reply's |
| HashicorpRules.DropTrailingSlash | src/TgVault/Hashicorp/HashicorpVault.php:358-364 | one trailing slash is removed, if present |
| HashicorpRules.DropLeadingSlash | src/TgVault/Hashicorp/HashicorpVault.php:358-364 | one leading slash is removed, if present |
| HashicorpRules.UrlJoinOneSlash | src/TgVault/Hashicorp/HashicorpVault.php:358-364 | URI and path are joined with exactly one slash between them |
| HashicorpRules.TokenHeader | src/TgVault/Hashicorp/HashicorpVault.php:353-356 | at most one token header |
| HashicorpRules.BuildRequestHeaders | src/TgVault/Hashicorp/HashicorpVault.php:327-385 | every request carries `X-Vault-Request`; a token header is present exactly when a token with a `client_token` is held, and it then carries that token |
| HashicorpRules.EffectiveExpiryIsMin | src/TgVault/Hashicorp/HashicorpVault.php:230-240 | the expiry is the token's own, or the earlier of that and creation plus `maxTtl` when `maxTtl` is positive |
| HashicorpRules.RenewalWindow | src/TgVault/Hashicorp/HashicorpVault.php:206-224 | a renewal period above 10 seconds is used as given, anything else becomes 300 seconds |
| HashicorpRules.RenewalStaysDue | src/TgVault/Hashicorp/HashicorpVault.php:206-224 | once renewal is due it stays due until the token expires, and the token status reports VAULT_ERR_RENEWAL all that time |
| HashicorpRules.RenewalNotYetDue | src/TgVault/Hashicorp/HashicorpVault.php:206-224 | renewal is not due while more than the window remains |
| HashicorpRules.TokenStatus | src/TgVault/Hashicorp/HashicorpVault.php:90-101 | no token, expired, due for renewal and OK each hold exactly in their case |
| HashicorpRules.StatusOpenings | src/TgVault/Hashicorp/HashicorpVault.php:90-101 | the four token status texts start with four openings no two of which can be confused |
| HashicorpVaults.HashicorpVault.TokenStatusCode | src/TgVault/Hashicorp/HashicorpVault.php:90-101 | `getTokenStatus(false)` on the vault's own token: no token, expired, due for renewal and OK each hold exactly in their case |
| HashicorpVaults.HashicorpVault.LastResult | src/TgVault/Hashicorp/HashicorpVault.php:163-165 | `getLastResult` is none exactly before the first request, and afterwards the server's answer to the last request sent (kept by the vault's invariant `Answered`) |
| HashicorpRules.TokenStatusText | src/TgVault/Hashicorp/HashicorpVault.php:90-101 | "no token available" exactly without a token; the text opens with "token expired at ", "token valid but needs renewal (expires at " or "token valid (expires at " exactly when the status code is expired, renewal due or OK |
| HashicorpRules.Unwrap | src/TgVault/Hashicorp/HashicorpVault.php:61-70 | the answer becomes a Secret exactly when it succeeded; otherwise the response itself is memoized |
| HashicorpRules.MemoResult | src/TgVault/Hashicorp/HashicorpVault.php:73-78 | a memoized Secret is returned; a memoized failure is thrown as VAULT_ERR_SECRET with the result object attached |
| HashicorpRules.UnwrapKv1 | src/TgVault/Hashicorp/HashicorpVault.php:61-67 | a KV version 1 answer yields a Secret reading each payload key |
| HashicorpRules.UnwrapKv2 | src/TgVault/Hashicorp/HashicorpVault.php:61-67 | a KV version 2 answer yields a Secret reading each inner key, with its metadata |
| HashicorpRules.SecretErrorCode | src/TgVault/Hashicorp/HashicorpVault.php:103-115 | success exactly for a memoized Secret; a cURL error maps to VAULT_ERR_CURL_BASE plus its number; an answer whose `errors` is an array maps to VAULT_ERR_HTTP_BASE plus its HTTP status; a path never fetched, or any other failure, is VAULT_ERR_SECRET_INTERNAL |
| HashicorpRules.SecretErrorText | src/TgVault/Hashicorp/HashicorpVault.php:103-115 | a fetched secret reads "Secret successfully retrieved", a cURL failure gives cURL's message, a declined answer gives its `errors` joined by " / ", and the internal case "Unknown internal error" |
| HashicorpRules.SecretErrorTextByCode | src/TgVault/Hashicorp/HashicorpVault.php:103-115 | for HTTP statuses between 100 and 599 the text follows from the status code alone: above VAULT_ERR_CURL_BASE the cURL message, an HTTP status the vault's messages, the internal code "Unknown internal error" |
| HashicorpRules.Implode | src/TgVault/Hashicorp/HashicorpVault.php:112 | an empty list gives "", and a non-empty one opens with its first value's string |
| HashicorpRules.ImplodeSnoc | src/TgVault/Hashicorp/HashicorpVault.php:112 | one more value at the end adds the separator and that value's string, so every two neighbouring values are joined by the separator |
| HashicorpRules.DieOnTokenProblem | src/TgVault/Hashicorp/HashicorpVault.php:117-142 | with no usable token the exit message names the token problem, whatever the secret |
| HashicorpRules.DieOnFetched | src/TgVault/Hashicorp/HashicorpVault.php:117-147 | with a live token and a fetched secret, the exit message is "OK" or the renewal warning |
| HashicorpRules.DieOnTransport | src/TgVault/Hashicorp/HashicorpVault.php:117-154 | with a live token and a cURL error, the exit message says the vault is unreachable and names the code |
| HashicorpRules.DieOnDeclined | src/TgVault/Hashicorp/HashicorpVault.php:103-157 | with a live token and an answer the vault declined with an HTTP status, the exit message says the vault declines and names the status |
| HashicorpRules.DieOnInternal | src/TgVault/Hashicorp/HashicorpVault.php:103-150 | with a live token and nothing fetched for the path, or a failure that is neither a cURL error nor a declined request, the exit message reports an internal error |
| HashicorpVaults.HashicorpVault.constructor | src/TgVault/Hashicorp/HashicorpVault.php:34-41 | a new client has its config, a fresh logger and cache, no token, no memo and no requests |
| HashicorpVaults.HashicorpVault.SetLogger | src/TgVault/Hashicorp/HashicorpVault.php:85-88 | the logger is set on the vault and on its cache |
| HashicorpVaults.SendError | src/TgVault/Hashicorp/HashicorpVault.php:392-407 | a cURL error is always reported, a non-JSON answer never, a JSON answer only through a set `errors` |
| HashicorpVaults.HashicorpVault.Send | src/TgVault/Hashicorp/HashicorpVault.php:327-414 | one request is recorded and its result becomes the last result; the cURL error message, or the `errors` of a JSON answer, is logged as an error and nothing else is; token and memo are unchanged |
| HashicorpVaults.HashicorpVault.Post | src/TgVault/Hashicorp/HashicorpVault.php:308-319 | the JSON body is posted with its content headers |
| HashicorpVaults.HashicorpVault.RemoveToken | src/TgVault/Hashicorp/HashicorpVault.php:46-49 | the token is dropped from the vault and from the cache |
| HashicorpVaults.HashicorpVault.SetTokenFromCache | src/TgVault/Hashicorp/HashicorpVault.php:245-250 | a cached token is rebuilt, otherwise the vault stays without one |
| HashicorpVaults.HashicorpVault.Hold | src/TgVault/Hashicorp/HashicorpVault.php:249 | the rebuilt token is held; requests, memo and last result are unchanged |
| HashicorpVaults.HashicorpVault.Accept | src/TgVault/Hashicorp/HashicorpVault.php:255-290 | a granted answer becomes the token and is written to the cache; any other answer changes nothing |
| HashicorpVaults.HashicorpVault.Take | src/TgVault/Hashicorp/HashicorpVault.php:263-264 | the new token is held and written to the cache under `token`; nothing else about the vault changes |
| HashicorpVaults.HashicorpVault.Store | src/TgVault/Hashicorp/HashicorpVault.php:264 | the cache's `token` field holds the token's properties afterwards |
| HashicorpVaults.HashicorpVault.Announce | src/TgVault/Hashicorp/HashicorpVault.php:265 | one Info entry, "Token renewed" or "Token replaced" with the vault's prefix, for a library logger and none otherwise; the count of "Using token" entries is unchanged |
| HashicorpVaults.HashicorpVault.LogOther | src/TgVault/BaseVault.php:84-110 | the message, with the vault's prefix and the cleaned object, is appended at its level for a library logger and for no other logger; the count of "Using token" entries is unchanged |
| HashicorpVaults.HashicorpVault.RequestNewToken | src/TgVault/Hashicorp/HashicorpVault.php:255-268 | one login request is sent; a granted answer replaces the token and is cached |
| HashicorpVaults.HashicorpVault.RenewToken | src/TgVault/Hashicorp/HashicorpVault.php:273-290 | without a token nothing happens; an expired token is removed; a live one is renewed with one request |
| HashicorpVaults.TokenPlan | src/TgVault/Hashicorp/HashicorpVault.php:171-193 | `getToken` sends at most one request, and none exactly when the token it checks is live and not due; a live token is never lost (a refused renewal keeps it); it ends without a token only after a refused login |
| HashicorpVaults.OtherEntry | src/TgVault/Hashicorp/HashicorpVault.php:171-193 | the vault's other log entries (errors, "Token replaced", "Token renewed", the status lines) are not "Using token" entries |
| HashicorpVaults.UsingEntry | src/TgVault/Hashicorp/HashicorpVault.php:187-191 | the entry `getToken` logs for the token at hand is one "Using token" entry |
| HashicorpVaults.HashicorpVault.GetToken | src/TgVault/Hashicorp/HashicorpVault.php:171-193 | the token and the requests sent are those `TokenPlan` gives for the held or cached token; the last result is the answer to the request sent, if any; `TokenEffects`: an expired token that no login replaces is gone from the cache, a granted token is written to the cache, a usable held token leaves the cache alone, `loggedToken` is set once a token is at hand, and a refused renewal or login with no expired token to drop leaves the cache as it was found (as loaded, when no token was held), the log holds at most one "Using token" entry, exactly one once a token was at hand for a library logger |
| HashicorpVaults.HashicorpVault.Consult | src/TgVault/Hashicorp/HashicorpVault.php:172-174 | the cache is consulted only when no token is held; a held token leaves the cache alone, otherwise the cache is only loaded, its contents unchanged |
| HashicorpVaults.HashicorpVault.Refresh | src/TgVault/Hashicorp/HashicorpVault.php:175-183 | an expired token is removed from memory and the cache, a due token is renewed with one request and a granted renewal is cached and a refused one leaves the cache as found, a usable one is left alone with the cache unchanged |
| HashicorpVaults.HashicorpVault.Ensure | src/TgVault/Hashicorp/HashicorpVault.php:184-186 | a login happens exactly when no token remains; a granted token is cached, a refused login leaves the cache alone |
| HashicorpVaults.HashicorpVault.Note | src/TgVault/Hashicorp/HashicorpVault.php:187-191 | the first time a token is at hand, exactly one Info entry "Using token: " with the masked token info is logged; otherwise the log is unchanged |
| HashicorpVaults.HashicorpVault.GetSecret | src/TgVault/Hashicorp/HashicorpVault.php:57-79 | a memoized path is answered with no request and no change to token, memo, last result, log or cache; a new path sends `getToken`'s requests, then one GET carrying the token it yields, memoizes that GET's outcome and makes its response the last result, with `getToken`'s effects on cache and log (`TokenEffects`); at most two requests; the answer is the memo's result |
| HashicorpVaults.HashicorpVault.Fetch | src/TgVault/Hashicorp/HashicorpVault.php:58-71 | the requests of the token check as `TokenPlan` gives them, then the GET with the resulting token, memoized and kept as the last result; `getToken`'s effects on cache and log are kept |
| HashicorpVaults.HashicorpVault.Retrieve | src/TgVault/Hashicorp/HashicorpVault.php:60-70 | exactly one GET for the path, with the current token; its response is the last result and is memoized; the token and `loggedToken` are unchanged; the log gains only the error entry `request()` writes for a failed call |
| HashicorpVaults.HashicorpVault.Memoize | src/TgVault/Hashicorp/HashicorpVault.php:61-70 | only the memo entry for the path changes: token, requests, last result and `loggedToken` stay |
| HashicorpVaults.HashicorpVault.CheckToken | src/TgVault/Hashicorp/HashicorpVault.php:59 | the token, the requests and the last result are those of `getToken` as `TokenPlan` gives them, with its effects on cache and log (`TokenEffects`); the memo is left alone |
| HashicorpVaults.HashicorpVault.DieOn | src/TgVault/Hashicorp/HashicorpVault.php:117-158 | both statuses are logged as errors and the exit message follows from the two status codes |
| HashicorpVaults.NewHashicorpVault | src/TgVault/Hashicorp/HashicorpVault.php:34-41 | a loosely NULL configuration fails with VAULT_ERR_CONFIG_EMPTY; otherwise construction fails exactly when the config is refused |
| SecretProviders.Loaded | src/TgVault/SecretProvider.php:58-67 | the vault is asked only while nothing is loaded; afterwards the slot never changes |
| SecretProviders.Replay | src/TgVault/SecretProvider.php:44-52 | one answer per call |
| SecretProviders.AskedOnce | src/TgVault/SecretProvider.php:44-67 | the answers depend only on the vault's first answer: later answers of the vault are never consulted |
| SecretProviders.HeldReads | src/TgVault/SecretProvider.php:44-52 | once a secret is loaded, every key reads that secret |
| SecretProviders.CaughtSticks | src/TgVault/SecretProvider.php:44-52 | once loading failed, every key fails with "No such secret" |
| SecretProviders.FreshReplay | src/TgVault/SecretProvider.php:44-67 | the first call raises a vault failure and later calls fail with "No such secret", or every call reads the loaded secret |
| SecretProviders.SecretProvider.constructor | src/TgVault/SecretProvider.php:29-35 | a new provider has its path and nothing loaded |
| SecretProviders.SecretProvider.LoadSecret | src/TgVault/SecretProvider.php:58-67 | the vault's answer is taken only when nothing is loaded; a failure is raised that once |
| SecretProviders.SecretProvider.Get | src/TgVault/SecretProvider.php:44-52 | the answer for a key follows `Answer` on the state before the call |
| SecretProviders.NewSecretProvider | src/TgVault/SecretProvider.php:29-35 | a missing vault or a loosely NULL path is refused with VAULT_ERR_NULL; anything else builds an empty provider |
| LegacySecretProviders.SecretProvider.constructor | src/Vault/SecretProvider.php:27-33 | a new legacy provider has its path and nothing loaded |
| LegacySecretProviders.SecretProvider.LoadSecret | src/Vault/SecretProvider.php:56-65 | the vault is asked only while nothing is held; a failed answer is kept and returned as the error, a Secret is kept, and either is never asked for again |
| LegacySecretProviders.SecretProvider.Get | src/Vault/SecretProvider.php:44-52 | the Secret is loaded once, a load failure is returned as that failure, a held Secret is read by its `get`, and a kept failure yields "No such secret: " with the path |
| LegacySecretProviders.NewSecretProvider | src/Vault/SecretProvider.php:27-33 | the empty path is refused with VAULT_ERR_NULL, any other builds an empty provider |
| CredentialsProviders.NotBlank | src/TgVault/CredentialsProvider.php:27-33 | a string starting with a non-whitespace character is not blank |
| CredentialsProviders.KeyChoice | src/TgVault/CredentialsProvider.php:27-33 | a string key is kept unless blank; a non-zero integer or `true` is kept as its string form; NULL, false, 0, arrays and objects fall back to the default; with a non-blank default the chosen key is never blank |
| CredentialsProviders.DefaultsNotBlank | src/TgVault/CredentialsProvider.php:29-30 | neither default key, `username` nor `password`, is blank |
| CredentialsProviders.CredentialsProvider.constructor | src/TgVault/CredentialsProvider.php:27-33 | the keys are the given ones, or the defaults when loosely NULL, blank, an array or an object |
| CredentialsProviders.CredentialsProvider.GetUsername | src/TgVault/CredentialsProvider.php:40-42 | the username is the provider's answer for the username key |
| CredentialsProviders.CredentialsProvider.GetPassword | src/TgVault/CredentialsProvider.php:49-51 | the password is the provider's answer for the password key |
| CredentialsProviders.NewCredentialsProvider | src/TgVault/CredentialsProvider.php:27-33 | refuses a missing vault or a NULL path, otherwise builds the provider with its keys |
| CredentialsProviders.CustomSecret | tests/TgVault/CredentialsProviderTest.php:21-26 | the test's secret holds `username2` and `password2` |
| CredentialsProviders.CustomKeys | tests/TgVault/CredentialsProviderTest.php:21-26 | the custom keys of the test are kept |
| CredentialsProviders.CustomKeysRead | tests/TgVault/CredentialsProviderTest.php:21-26 | a fresh provider reads `username2` and `password2` under the custom keys |
| VaultFactories.UcFirst | src/TgVault/VaultFactory.php:39-47 | capitalising keeps the length |
| VaultFactories.ClassNameInjective | src/TgVault/VaultFactory.php:39-47 | distinct type names give distinct class names |
| VaultFactories.KnownClassIff | src/TgVault/VaultFactory.php:39-47 | a class name resolves to a vault kind exactly for that kind's type name |
| VaultFactories.UcFirstName | src/TgVault/VaultFactory.php:39-47 | capitalising gives a kind's name exactly from its lower-case or capitalised type name |
| VaultFactories.CreateVault | src/TgVault/VaultFactory.php:39-47 | a successful construction is handed the configuration unchanged |
| VaultFactories.CreateVaultResolves | src/TgVault/VaultFactory.php:39-47 | a type resolves to a kind exactly when its trimmed, capitalised name is that kind's; a blank type, and an array or object type (whose `trim` yields NULL), is refused with VAULT_ERR_TYPE_EMPTY, an unknown one with VAULT_ERR_TYPE_NOT_FOUND |
| VaultFactories.ArrayConfig | src/TgVault/VaultFactory.php:23-28 | an array configuration reads its `type` and `config` |
| VaultFactories.ArrayCreate | src/TgVault/VaultFactory.php:23-28 | `create` on an array configuration equals `createVault` on its `type` and `config` |
| VaultFactories.FileType | tests/TgVault/VaultFactoryTest.php:14-23 | type `file` builds a FileVault with the given configuration |
| VaultFactories.MemoryType | tests/TgVault/VaultFactoryTest.php:25-34 | type `memory` builds a MemoryVault with the given configuration |
| VaultFactories.NewVault | src/TgVault/VaultFactory.php:23-47 | a refused type or configuration fails with its error; otherwise the vault of the resolved kind is built fresh from the `config` entry: a FileVault on its `filename`, a MemoryVault on its `secrets`, a HashicorpVault on its accepted Config with no token, memo or request |
| VaultFactories.Instantiate | src/TgVault/VaultFactory.php:45-46 | the constructor of the resolved kind fails exactly as that kind refuses the configuration, and otherwise yields a fresh vault of that kind built from that configuration |
| VaultFactories.InstantiateFile | src/TgVault/File/FileVault.php:30-37 | the file-vault constructor fails exactly when it refuses the configuration; otherwise the vault holds the configured `filename` and nothing loaded |
| VaultFactories.InstantiateMemory | src/TgVault/Memory/MemoryVault.php:27-37 | the memory-vault constructor fails exactly when it refuses the configuration; otherwise its table is built from the configured `secrets` |
| VaultFactories.InstantiateHashicorp | src/TgVault/Hashicorp/HashicorpVault.php:34-41 | the Hashicorp constructor fails exactly when it refuses the configuration; otherwise the vault runs on the accepted Config with no token, memo or request |

## Left out

- Network, filesystem and clock. The HTTP server, the secrets file, the cache file
  and the time are parameters. cURL options are not modelled: timeouts, TLS
  verification, the user agent and verbose output.
- File locking and concurrent processes sharing the cache file. The model reads the
  file as one value per cache object.
- PSR-3 loggers. Only the library's own `Logger` is modelled, plus "no logger" and a
  PSR logger. `BaseVault::log` sends nothing to a PSR logger, so in the model that
  logger records only what the Cache reports through its `error` method.
- `class_exists` and autoloading. The known vault classes are a fixed, case-sensitive
  set of three.
- `json_encode` and `date(DATE_ATOM)` are opaque functions in `Env`. Only the JSON
  round trip is modelled, and it treats an array with keys 0..n-1 as a list.
- PHP's conversion of numeric-string keys to integers. Array keys are strings; an
  integer key is its decimal string.
- PHP 8 behaviour. Where PHP 7 and 8 differ, the model follows PHP 7: property
  assignment on NULL, false or "" promotes to an object; an undefined constant is a
  warning.
- `VAULT_SECRET_OK` and `VAULT_ERR_INTERNAL` are not defined in `commons.php`. The
  model gives them the distinct values -1 and -2. PHP 7 would read them as their
  own names, and in `dieOn` that string compares equal to the integer 0.
- `dieOn` ends the process with `exit`. The model returns the message instead.
- HashicorpRules.ResponseObject: the `debug` property with the request headers that
  cURL sent, added when the configuration sets `debug`, is not modelled, because the
  headers come from cURL itself.
- IntOf: PHP floats are not modelled. A string is read as the integer at its head
  (after blanks and a sign), so "1.5" reads as 1 where PHP arithmetic would use 1.5,
  and an array reads as 0. EffectiveExpiry and RenewalWindow use IntOf for `maxTtl`
  and `renewalPeriod`, so they inherit this.
- HashicorpRules.EffectiveExpiryIsMin: a numeric string `maxTtl` such as "3600" caps
  the expiry as in PHP; a float `maxTtl` is read as its integer part (see IntOf).
- HashicorpRules.RenewalWindow: a numeric string `renewalPeriod` is used as in PHP; a
  float one is read as its integer part (see IntOf).
- PhpValues.StrOf: PHP 7 throws an `Error` when an object is converted to a string;
  the model reads an object as "". The callers that can meet an object are
  `Implode` (a JSON `errors` list whose items are objects), `TokenHeader` (an
  object `client_token`), `Token.Info` (an object `client_token` or
  `expiryString`), `TokenStatusText` (an object `expiryString`), and the provider's "No such secret: " message
  (an object path).
- Inheritance is modelled as composition. Each vault owns a `BaseVault`; a
  CredentialsProvider owns a SecretProvider.
- A SecretProvider's vault is modelled as the result of `getSecret` on each call,
  plus a flag saying whether a vault was given. The vault object itself is not held.
- FileVaults.FileVault.Load: PHP reloads while the loaded table is loosely NULL,
  which includes an empty table. The model does the same.
- HashicorpRules.UnwrapKv1: stated only for payloads without their own `data` key.
  For such a payload the server's answer cannot tell KV version 1 from version 2.
- LegacySecretProviders.NewSecretProvider: the legacy path is a string, so only ""
  counts as NULL there.
- LegacySecretProviders.SecretProvider.Get: the legacy class resolves `Secret` and
  `VaultException` in its own `Vault` namespace (src/Vault/SecretProvider.php:48 and :60).
  The model assumes the vault answers with a Secret that passes the `instanceof Secret` test,
  or fails with an exception the `catch` clause catches. A `TgVault\Secret`, which fails the
  test and so reads as "No such secret", is not modelled, nor is an exception of another
  class, which would escape without being kept. `LoadSecret` shares this assumption.
- Caches.LoadFrom: a file holding "0", or an empty file, reads as an empty object,
  because PHP's `empty` treats both as empty.
- `getSecretError` on a path never fetched: PHP reads an undefined index as NULL.
  The model treats that as the internal-error case.
