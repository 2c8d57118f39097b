# Token cache, cell write and file lookup of the Graph spreadsheet scripts

These scripts authenticate against Microsoft's identity platform with the client-credential
flow and then read or write single cells of an Excel workbook through Microsoft Graph.
This project models the three pieces of decision logic in them. The network, the clock and
the environment do not appear as calls. Their answers are parameters.

- **Token cache** (`TokenCache`, write_test.py `get_token`). The module-level cache
  `{access_token, expires_at}` starts as `{None, 0}`. If any of the three credentials is
  missing, `get_token` returns nothing. Otherwise it returns the cached token while
  `now < expires_at - 60`. In every other case it asks the provider. When the reply holds a
  token, the token is stored first. The expiry is then the clock read after the reply plus
  `expires_in`, which defaults to 3599. An `expires_in` that is not a number raises at that
  point: the call returns nothing, and the cache keeps the new token with the old expiry.
  A reply without a token, or an exception while asking, leaves the cache alone. The pure
  function `GetTokenStep` gives the meaning of one call. `Run` chains several calls. The
  class `Cache` holds the two mutable fields, and its `GetToken` method is proved against
  `GetTokenStep`.
- **Cell write** (`CellWrite`, write_test.py `write_single_cell`). With no token or an empty
  file id, nothing is sent and the result is `false`. Otherwise a PATCH goes to the range's
  `values` resource with the body `[[value]]`. Only status 200 or 204 counts as success. Every
  other status, and a transport exception, gives `false`. `WriteCell` runs `get_token` on a
  `Cache` first and then takes this decision.
- **File lookup** (`FileLookup`, get_file_id_from_name.py `find_file_id`). The search
  request is always sent, even when no token was obtained. For a 200 reply, the method scans
  the `value` list in order, which counts as empty when absent. It returns the id of the first
  item whose lowercased name equals the lowercased filename. `FindFileId` is a loop proved
  equal to the function `Lookup`, which is defined through `FirstMatch`.

write_test.py:105 accepts only 200 and 204, so a 202 reply is a failed write
(`CellWrite.AcceptedIsFailure`). `get_token` returns `None` on every failure.

## Model

| member | source | states |
|---|---|---|
| TokenCache.GetTokenStep | write_test.py:37-69 | the provider is asked exactly when credentials are present and the cache cannot serve; a returned token is what the cache then holds; the cache changes only when the provider granted a token, which it then holds; with a numeric or absent expires_in the token is returned and expires at the post-reply clock plus expires_in (default 3599); a call that returns nothing keeps the expiry, and keeps the whole cache unless expires_in was not a number |
| TokenCache.MissingCredentialsReturnNothing | write_test.py:40-42 | with any credential unset or empty, nothing is returned, no request is made and the cache is unchanged, even if it holds a valid token |
| TokenCache.FreshTokenIsReused | write_test.py:44-46 | with credentials, a non-empty cached token and now < expires_at - 60, the cached token is returned, no request is made and the cache is unchanged |
| TokenCache.StaleOrEmptyCacheAsksProvider | write_test.py:45-57 | an absent or empty cached token, or now >= expires_at - 60, leads to a provider request |
| TokenCache.GrantedTokenIsCached | write_test.py:59-63 | on success the token is returned and cached with expiry equal to the clock read after the reply plus expires_in, or plus 3599 when expires_in is absent |
| TokenCache.RefusalLeavesCache | write_test.py:64-69 | a reply without access_token, or an exception while asking the provider, returns nothing and leaves both cache fields unchanged |
| TokenCache.NonNumericLifetimeStoresTokenOnly | write_test.py:59-69 | a granted reply whose expires_in is not a number makes the call return nothing, after the new token has replaced the old one; the old expiry stays |
| TokenCache.Run | write_test.py:37-69 | a sequence of calls yields one result per call and at most one provider request per call |
| TokenCache.RunWithinWindow | write_test.py:44-46 | calls made while the cached token is fresh all return it, none contacts the provider, and the cache is unchanged |
| TokenCache.ConsecutiveCallsShareToken | write_test.py:44-63 | once a call has returned a non-empty token, all later calls inside its validity window return that same token and none of them contacts the provider, so the whole run makes at most one request |
| TokenCache.Cache.constructor | write_test.py:31 | the cache starts as {None, 0} |
| TokenCache.Cache.GetToken | write_test.py:37-69 | updates the two fields exactly as GetTokenStep says; with missing credentials or a refused request nothing changes, and a call that returns nothing never changes the expiry |
| CellWrite.WriteSingleCell | write_test.py:75-116 | a request is sent iff the token is truthy and the file id non-empty; the result is true iff a sent request got status 200 or 204; the request targets the range URL, carries "Bearer token" and its body is the 1x1 matrix [[value]] |
| CellWrite.RangeValuesUrlEmbeds | write_test.py:92-95 | the file id, the sheet name and the range address appear in the range URL at fixed offsets after the user's drive-items prefix |
| CellWrite.AcceptedIsFailure | write_test.py:105-112 | a 202 reply is a failed write |
| CellWrite.WriteCell | write_test.py:80-116 | get_token runs on the cache first, and the write outcome is the WriteSingleCell decision on the token it returned |
| FileLookup.Lower | get_file_id_from_name.py:22 | lowercasing keeps the length, leaves no capital letter and leaves every other character in place |
| FileLookup.FirstMatch | get_file_id_from_name.py:21-26 | the result is the index of a matching item with no matching item before it, or nothing when no item matches |
| FileLookup.FindFileId | get_file_id_from_name.py:12-30 | the search request is always built from the user id, the filename and the token, and a missing token is sent as "Bearer None"; the in-order scan returns exactly Lookup's answer |
| FileLookup.FailedSearchFindsNothing | get_file_id_from_name.py:19-30 | a non-200 search returns nothing |
| FileLookup.MissingValueFindsNothing | get_file_id_from_name.py:20 | a reply without a value list returns nothing |
| FileLookup.LookupIsFirstMatchingId | get_file_id_from_name.py:19-26 | an id is returned iff the status is 200 and it belongs to a case-insensitively matching item with no matching item before it |
| FileLookup.NothingFoundIffNoMatch | get_file_id_from_name.py:19-29 | nothing is returned iff the status is not 200 or no item matches |
| FileLookup.FirstMatchCaseInsensitive | get_file_id_from_name.py:21-22 | filenames with equal lowercase forms select the same item |
| FileLookup.LookupCaseInsensitive | get_file_id_from_name.py:22 | filenames differing only in letter case give the same answer |
| FileLookup.LowerIdempotent | get_file_id_from_name.py:22 | lowercasing an already lowercased name changes nothing |
| FileLookup.LookupIgnoresQueryCase | get_file_id_from_name.py:22 | looking up a filename gives the same answer as looking up its lowercase form |

## Left out

- The MSAL client and `requests.get`/`requests.patch` are not modelled. They are network calls, so their outcomes are the input datatypes `ProviderReply`, `PatchReply` and `SearchReply`.
- `time.time()` is a float. The clock is modelled as integer seconds: `now` is the reading taken before the freshness test, and `Granted.clock` is the reading taken after the reply arrives.
- TokenCache.GetTokenStep: a non-numeric `expires_in` is one value, `NotANumber`. Numeric values of other Python types, such as floats, are modelled as integers.
- `load_dotenv` and `os.getenv` are not modelled. Credentials are optional strings, and a missing or empty one counts as absent.
- Logging, `print` output and the `__main__` blocks are not modelled, because they are command-line glue.
- The `get_token` imported by get_file_id_from_name.py comes from a module that is not part of this model. Its result is the `token` parameter of `FindFileId`.
- FileLookup.Lower: lowercases only the ASCII letters A-Z, whereas Python's `str.lower` applies full Unicode case mapping.
- FileLookup.FindFileId: an exception from `requests.get` or `response.json()` propagates to the caller. So does a `KeyError` from an item without `name`, or from the first matching item without `id` or `parentReference.path`. The model assumes a received reply whose items carry all of these.
- Header contents other than Authorization, the 10-second timeout and the exact URL text are not modelled beyond the embedding of the file id, sheet name and range.
- The unsynchronised check-then-set on the token cache only matters under concurrency, which the model does not cover.
