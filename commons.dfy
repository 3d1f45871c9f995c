/**
 * The status and error codes every vault shares, the exception they raise,
 * and the host environment (clock and formatting helpers) that the library
 * reads through PHP built-ins.
 */
module Commons {
  import opened PhpValues

  const VAULT_OK := 0
  const VAULT_ERR_CONFIG_EMPTY := 1
  const VAULT_ERR_CONFIG_TYPE := 2
  const VAULT_ERR_TYPE_EMPTY := 3
  const VAULT_ERR_TYPE_NOT_FOUND := 4
  const VAULT_ERR_RENEWAL := 5
  const VAULT_ERR_TOKEN_EXPIRED := 6
  const VAULT_ERR_NO_TOKEN := 7
  const VAULT_ERR_SECRET_INTERNAL := 8
  const VAULT_ERR_SECRET := 9
  const VAULT_ERR_CONFIG := 10
  const VAULT_ERR_NULL := 11
  const VAULT_ERR_NOT_FOUND := 12
  const VAULT_ERR_FILE_NOT_FOUND := 13
  const VAULT_ERR_HTTP_BASE := 0
  const VAULT_ERR_CURL_BASE := 1000

  // Used by the library but never defined by it: given codes that no other
  // status can take (HTTP statuses and cURL error numbers are never negative).
  const VAULT_SECRET_OK := -1
  const VAULT_ERR_INTERNAL := -2

  /** A VaultException: message, code and the optional details attached to it. */
  datatype VaultError = VaultError(message: string, code: int, details: Value)

  /** A call that either returns a value or throws a VaultException. */
  datatype Result<+T> = Success(value: T) | Failure(error: VaultError)

  function Raise(message: string, code: int): (e: VaultError)
    ensures e.code == code && e.details == Null
  {
    VaultError(message, code, Null)
  }

  /** What every vault constructor throws for a loosely NULL configuration. */
  const CONFIG_MISSING := Raise("Configuration must be set", VAULT_ERR_CONFIG_EMPTY)

  /**
   * What the library reads from the host instead of computing: `time()`,
   * `date(DATE_ATOM, t)` and `json_encode`. One operation sees one `now`.
   */
  datatype Env = Env(now: nat, dateAtom: int -> string, jsonEncode: Value -> string)
}
