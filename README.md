# Chargify PHP SDK: Direct signing and the entity rules, in Dafny

This project models the core of the Chargify PHP SDK:

- **Chargify Direct signing context (`ChargifyV2\Direct`).** It holds a timestamp and a SHA-1 nonce that are fixed at construction, a data array with `redirect_uri` merged in by `array_merge_recursive`, and a request signature that is computed lazily and cached. The signature is HMAC-SHA1 under the API secret of the API id, the decimal timestamp, the nonce and the data string. Once the signature exists, the data is frozen: `setData` and `setRedirect` throw. The class invariant `Direct.Direct.Valid` states that a cached signature always signs the current data.
- **Credentials probe (`AuthRequest`).** It posts a signed sign-up form and judges the answer. The credentials are good when the status is not 200, a Location header is present, and the trimmed body is not "Incorrect signature" in any letter case.
- **The two services (`ChargifyV2` and the version 1 `Chargify`).**
  - Configuration.
  - The client options.
  - `request()`: method upper-casing and path normalisation, the `.json` suffix (version 1 only), and the "POST and PUT need raw data" rule. A transport failure without a response becomes `false`.
- **The two entity bases (`AbstractEntity`).**
  - Parameters.
  - The error list (version 2) or error map (version 1).
  - The ArrayAccess data.
  - `getResponseArray`, which turns a response into an array. Version 1 stops at a bad status and replaces the errors with the API's own. Version 2 goes on reading the body and appends.
- **The entity actions.**
  - Version 2 `Call::readByChargifyId`.
  - Version 1 `Subscription`, `Component` and `Metadata`.
  - For each action, the model states which request is sent, which key wraps the parameters, and what `_data` becomes.

The model takes the source's own shape:

- Objects whose fields change are classes, with `modifies` clauses on their methods.
  - `Direct.Direct` and `Direct.AuthRequest`.
  - `ServiceV2.ChargifyV2` and `ServiceV1.Chargify`.
  - Both `AbstractEntity` classes.
  - `CallV2.Call`, `Subscription.Subscription`, `Component.Component` and `Metadata.Metadata`.
- An entity subclass holds its base as `entity` and acts on the base's fields.
- The loops of the source are methods with loop invariants:
  - `generateNonce`;
  - the error-appending `foreach` of version 2 `getResponseArray`;
  - `_normalizeResponseArray`;
  - the `foreach` of `Metadata::create`.
  Each loop is proved against a function that specifies its result.
- PHP values are the datatype `Php.Value`: null, booleans, integers, strings and ordered arrays with integer or string keys. The datatype includes PHP's `empty()`, array writes with and without an offset, `isset`, `unset`, `count` and `array_merge_recursive` for the redirect.

Things outside the SDK become parameters:

- **The HTTP client** is a function `send` from the request the SDK builds to what the transport produced: a response, or a `RequestException` with or without a response attached.
- **SHA-1 and HMAC-SHA1** are fields of `Crypto.Crypto`. The ghost predicate `Crypto.Sound` states only that their results are 40 lower-case hex digits.
- **`mt_rand(0, 255)`** is `draw: nat -> bv8`.
- **`time()`** is `now`.
- **`json_decode` of a body** is the `json` field of the response.
- **A JSON-encoded body** is `Http.JsonOf(v)`.

The model follows the code in these places:

- The probe posts the data string with the `&amp;` separator, exactly as `getHiddenFields` renders it. It does not post the `&` form that is signed.
- Version 2 `getResponseArray` declares an `array` return type. A non-blank body that does not decode to an array therefore ends in a TypeError, which `EntityV2.Classify` models.
- `Direct::getRedirect()` declares a `string` return type, so it throws while the redirect is still null (`Direct.Direct.GetRedirect`).
- Version 1 `reactivate` reads the status code of the response before checking that there is one, so it throws when the transport gave no response (`Subscription.Subscription.Reactivate`).

## Model

| member | source | states |
|---|---|---|
| Direct.GenerateNonce | src/Crucial/Service/ChargifyV2/Direct.php:223-235 | the nonce is SHA-1 of the 32 characters drawn, one per `mt_rand(0, 255)`, in order; with a sound hash it is 40 lower-case hex digits |
| Direct.NonceSeed | src/Crucial/Service/ChargifyV2/Direct.php:225-231 | the hashed string has ceil(256/8) = 32 characters, the j-th being the j-th random byte |
| Direct.Direct.constructor | src/Crucial/Service/ChargifyV2/Direct.php:86-92 | a fresh context has the given service, timestamp `now`, the nonce of `generateNonce`, empty data, no redirect and no signature, and a probe pointing back at it; the invariant holds |
| Direct.Direct.SetData | src/Crucial/Service/ChargifyV2/Direct.php:127-139 | throws BadMethodCall exactly when the signature already exists, leaving the data unchanged; otherwise the data is the given array with the stored redirect merged in; the frozen-signature invariant is kept |
| Direct.Direct.SetRedirect | src/Crucial/Service/ChargifyV2/Direct.php:187-199 | throws exactly when signed, leaving data and redirect unchanged; otherwise stores the URL, or null, and merges it into the data (a null URL merges nothing) |
| Direct.Direct.MergeRedirect | src/Crucial/Service/ChargifyV2/Direct.php:208-213 | the data becomes `MergedData` of the old data and the redirect, which is the data itself while the redirect is null or PHP-empty |
| Direct.MergeRedirectUri | src/Crucial/Service/ChargifyV2/Direct.php:210-212 | after `array_merge_recursive` the key `redirect_uri` is present, every other string key keeps its value, and a new `redirect_uri` holds the URL |
| Direct.MergedData | src/Crucial/Service/ChargifyV2/Direct.php:208-213 | a null or PHP-empty redirect leaves the data as it is; any other redirect is merged |
| Direct.MergeAppendsRedirect | src/Crucial/Service/ChargifyV2/Direct.php:137-138 | data with string keys and no redirect gets `redirect_uri => url` appended as its last entry, everything else exactly as given |
| Direct.MergeKeepsOtherKeys | src/Crucial/Service/ChargifyV2/Direct.php:208-213 | merging never changes the value of a string key other than `redirect_uri` |
| Direct.SecondRedirectMakesList | src/Crucial/Service/ChargifyV2/Direct.php:210-212 | merging a second redirect turns `redirect_uri` into the list of both URLs in order |
| Direct.MergeRenumbersIndexKeys | src/Crucial/Service/ChargifyV2/Direct.php:210-212 | `array_merge_recursive` renumbers integer keys from 0 |
| Direct.Direct.GetDataString | src/Crucial/Service/ChargifyV2/Direct.php:159-166 | the data string is the bracket-fixed pairs joined by `&`, and it contains no "%5B" and no "%5D" |
| Direct.Direct.GetDataStringEncoded | src/Crucial/Service/ChargifyV2/Direct.php:173-180 | the same pairs in the same order joined by `&amp;`, with no "%5B" or "%5D" |
| QueryString.DataStringIsJoinOfPairs | src/Crucial/Service/ChargifyV2/Direct.php:159-180 | with either separator, the bracket fix-up of the joined query equals the join of the fixed-up pairs, so the two forms differ only in the separator |
| QueryString.FixupRemovesEscapedBrackets | src/Crucial/Service/ChargifyV2/Direct.php:163 | after the two `str_replace` passes no "%5B" and no "%5D" remain, whatever the input |
| QueryString.NestedKeyExample | src/Crucial/Service/ChargifyV2/Direct.php:159-166 | `['a' => ['b' => '1']]` gives the data string `a[b]=1` |
| Direct.Direct.GetRequestSignature | src/Crucial/Service/ChargifyV2/Direct.php:274-286 | the result is HMAC-SHA1 of the signed message for the current data; it is cached; a second call returns the cached value; with a sound HMAC it is a 40-digit hex digest |
| Direct.Direct.SignatureOf | src/Crucial/Service/ChargifyV2/Direct.php:283 | a signature computed with a sound HMAC is a 40-digit lower-case hex digest |
| Direct.Direct.GetResponseSignature | src/Crucial/Service/ChargifyV2/Direct.php:304-314 | HMAC-SHA1 under the secret of the six fields concatenated without separators; with a sound HMAC a hex digest |
| Direct.Direct.IsValidResponseSignatureLoose | src/Crucial/Service/ChargifyV2/Direct.php:334-337 | the check as written: a candidate that is not a numeric string passes exactly when it equals the recomputed signature, and is then a hex digest under a sound HMAC |
| Direct.Direct.IsValidResponseSignature | src/Crucial/Service/ChargifyV2/Direct.php:334-337 | the corrected check: a candidate that passes under a sound HMAC is a 40-digit lower-case hex digest |
| Direct.ResponseSignatureRoundTrip | src/Crucial/Service/ChargifyV2/Direct.php:304-337 | a signature the context computes is accepted for the same fields, by the check as written and by the corrected check |
| Direct.StrictComparisonExact | src/Crucial/Service/ChargifyV2/Direct.php:334-337 | the corrected check accepts exactly the recomputed signature |
| Direct.NonDigestRejected | src/Crucial/Service/ChargifyV2/Direct.php:334-337 | with a sound HMAC, the corrected check rejects anything that is not 40 lower-case hex digits |
| Direct.NonNumericNonDigestRejected | src/Crucial/Service/ChargifyV2/Direct.php:334-337 | with a sound HMAC, the check as written rejects anything that is neither a hex digest nor a numeric string |
| Direct.FortyXRejected | src/Crucial/Service/ChargifyV2/Direct.php:334-337 | forty 'x' characters are never a valid response signature, by the check as written or the corrected one |
| Direct.FieldBoundaryShiftKeepsSignature | src/Crucial/Service/ChargifyV2/Direct.php:304-314 | moving characters from the status code to the result code keeps the signature, because the fields are joined without separators |
| Direct.LooseComparisonAcceptsZero | src/Crucial/Service/ChargifyV2/Direct.php:334-337 | the comparison as written accepts "0" when the expected signature is "0e" followed by digits, though the corrected one rejects it |
| Direct.Direct.GetRedirect | src/Crucial/Service/ChargifyV2/Direct.php:242-245 | throws a TypeError exactly while the redirect is null, else returns it |
| Direct.Direct.SignupAction | src/Crucial/Service/ChargifyV2/Direct.php:344-347 | for the service's base URL the action is `https://api.chargify.com/api/v2/signups` |
| Direct.Direct.CardUpdateAction | src/Crucial/Service/ChargifyV2/Direct.php:356-359 | the action is the trimmed base URL, `/subscriptions/`, the decimal id and `/card_update` |
| Direct.SignupActionOfBaseUrl | src/Crucial/Service/ChargifyV2/Direct.php:346 | trimming the slashes of the base URL and appending `/signups` gives the sign-up URL |
| Direct.CardUpdateActionOfBaseUrl | src/Crucial/Service/ChargifyV2/Direct.php:358 | the card-update URL for any id is built on the base URL without its trailing slash |
| Direct.CardUpdateExample | src/Crucial/Service/ChargifyV2/Direct.php:356-359 | subscription 1234 gives `https://api.chargify.com/api/v2/subscriptions/1234/card_update` |
| Direct.Direct.GetHiddenFields | src/Crucial/Service/ChargifyV2/Direct.php:366-375 | the html is the five newline-terminated inputs in the order api_id, timestamp, nonce, the `&amp;` data, signature; rendering signs, and so freezes, the data |
| Direct.Direct.CheckAuth | src/Crucial/Service/ChargifyV2/Direct.php:382-388 | once signed, throws and changes nothing: data, redirect, signature and last probe response stay as they were; otherwise sets the redirect to `http://localhost`, merges it, signs and freezes the data, posts the probe and returns `test()` as written: an error without a response, else the probe's verdict |
| Direct.Direct.CheckAuthOrFalse | src/Crucial/Service/ChargifyV2/Direct.php:382-388 | the same final state, with the corrected probe: false without a response, never an error after the redirect is set |
| Direct.Verdict | src/Crucial/Service/ChargifyV2/Direct/Utility/AuthRequest.php:58-74 | the credentials pass if and only if the status is not 200, a Location header exists, and the trimmed body is not "Incorrect signature" ignoring case |
| Direct.RedirectAccepts | src/Crucial/Service/ChargifyV2/Direct/Utility/AuthRequest.php:64-74 | a 302 with a Location header and an empty body passes |
| Direct.IncorrectSignatureRejects | src/Crucial/Service/ChargifyV2/Direct/Utility/AuthRequest.php:58-72 | a 200 without Location whose body is "Incorrect signature" fails |
| Direct.IncorrectSignatureAnyCaseRejects | src/Crucial/Service/ChargifyV2/Direct/Utility/AuthRequest.php:58-61 | any body that trims to "Incorrect signature" in some letter case fails |
| Direct.TestOutcome | src/Crucial/Service/ChargifyV2/Direct/Utility/AuthRequest.php:55-75 | `test()` as written throws exactly when there was no response, and otherwise answers the verdict |
| Direct.ProbeResult | src/Crucial/Service/ChargifyV2/Direct/Utility/AuthRequest.php:55-75 | the probe as intended answers false without a response; true only for a non-200 response with a Location header |
| Direct.ProbeAgreesWithTestWhenAnswered | src/Crucial/Service/ChargifyV2/Direct/Utility/AuthRequest.php:55-75 | wherever `test()` as written answers, the corrected probe gives the same answer; where it throws, the probe says false |
| Direct.TransportFailureThrows | src/Crucial/Service/ChargifyV2/Direct/Utility/AuthRequest.php:57-58 | without a response `test()` as written throws, while the probe answers false |
| Direct.AuthRequest.constructor | src/Crucial/Service/ChargifyV2/Direct/Utility/AuthRequest.php:44-48 | the probe refers to its context and has no last response |
| Direct.AuthRequest.Request | src/Crucial/Service/ChargifyV2/Direct/Utility/AuthRequest.php:96-121 | signs the data, posts the sign-up form (api id, timestamp, nonce, signature, `&amp;` data) to the sign-up action, maps a transport failure to false, and records the result as the last response |
| Direct.AuthRequest.Test | src/Crucial/Service/ChargifyV2/Direct/Utility/AuthRequest.php:55-75 | posts the probe and returns `TestOutcome` of what came back |
| Direct.AuthRequest.TestOrFalse | src/Crucial/Service/ChargifyV2/Direct/Utility/AuthRequest.php:55-75 | posts the probe and returns `ProbeResult` of what came back |
| ServiceV2.ResolveHandler | src/Crucial/Service/ChargifyV2.php:98-105 | a missing or PHP-empty handler gives the default stack, a HandlerStack is used as given, and any other value is rejected with InvalidArgumentException |
| ServiceV2.ClientOptionsFor | src/Crucial/Service/ChargifyV2.php:108-118 | the client uses the version 2 base URL, a 10-second timeout, no redirects, and the API id and password as credentials |
| ServiceV2.ChargifyV2.Configured | src/Crucial/Service/ChargifyV2.php:88-119 | the service keeps the API id, password and secret unchanged and has no last response |
| ServiceV2.ChargifyV2.New | src/Crucial/Service/ChargifyV2.php:88-119 | construction fails exactly when the handler setting is rejected; otherwise the credentials are stored unchanged |
| ServiceV2.ChargifyV2.Request | src/Crucial/Service/ChargifyV2.php:197-233 | the result is the prepared request's exchange with no suffix; the last response is the returned value, and is untouched when preparation throws |
| Http.Prepare | src/Crucial/Service/ChargifyV2.php:199-218 | preparation fails exactly for POST or PUT without raw data; otherwise the method is upper-cased, the query is the parameters, and a body is sent exactly when the raw data is not PHP-empty |
| Http.RequestPath | src/Crucial/Service/ChargifyV2.php:200 | the path loses only its leading slashes, and then the suffix is appended |
| Http.Receive | src/Crucial/Service/ChargifyV2.php:220-228 | a response attached to a RequestException is used, and an exception without one becomes false |
| Http.HeaderValues | src/Crucial/Service/ChargifyV2/Direct/Utility/AuthRequest.php:64-65 | no Location values exactly when no header name matches ignoring case |
| ServiceV1.TimeoutFor | src/Crucial/Service/Chargify.php:89-127 | the timeout is the configured one when that is not PHP-empty, and the default 10 when it is; it is never PHP-empty |
| ServiceV1.BaseUriFor | src/Crucial/Service/Chargify.php:121-131 | the base URI is `https://`, then the configured hostname with the slashes at both ends trimmed, then one `/`; the middle has no slash at either end |
| ServiceV1.BaseUriDropsSlashes | src/Crucial/Service/Chargify.php:121-131 | a hostname given as `/host/` yields `https://host/` |
| ServiceV1.Chargify.constructor | src/Crucial/Service/Chargify.php:115-141 | stores the trimmed hostname, the key and the timeout; authenticates with the key and the password "x" |
| ServiceV1.Chargify.Request | src/Crucial/Service/Chargify.php:171-208 | like version 2, with `.json` after the path; the last response is the returned value |
| EntityV2.AbstractEntity.constructor | src/Crucial/Service/ChargifyV2/AbstractEntity.php:59-62 | a fresh entity has no parameters, no errors and empty data |
| EntityV2.AbstractEntity.SetParam | src/Crucial/Service/ChargifyV2/AbstractEntity.php:82-87 | sets exactly that one parameter |
| EntityV2.SetParamThenGetParam | src/Crucial/Service/ChargifyV2/AbstractEntity.php:82-99 | a parameter reads back as set, or null when the value is PHP-empty; the other parameters are unchanged |
| EntityV2.AbstractEntity.GetParam | src/Crucial/Service/ChargifyV2/AbstractEntity.php:96-99 | null exactly when the stored value is missing or PHP-empty, the stored value otherwise |
| EntityV2.AbstractEntity.GetParamAsDeclared | src/Crucial/Service/ChargifyV2/AbstractEntity.php:96-99 | with the declared return type, the PHP-empty case throws a TypeError |
| EntityV2.UnsetParamThrows | src/Crucial/Service/ChargifyV2/AbstractEntity.php:96-99 | reading an unset parameter throws as declared, where null was meant |
| EntityV2.Classify | src/Crucial/Service/ChargifyV2/AbstractEntity.php:173-231 | errors are only ever appended; the result is a TypeError exactly for a non-blank body that does not decode to an array |
| EntityV2.ApiErrors | src/Crucial/Service/ChargifyV2/AbstractEntity.php:219-223 | the API's errors are the values of `result.errors` in order, none when that is not an array |
| EntityV2.NoResponseAddsOneError | src/Crucial/Service/ChargifyV2/AbstractEntity.php:177-187 | no response appends exactly one networking error and returns [] |
| EntityV2.BadStatusKeepsProcessing | src/Crucial/Service/ChargifyV2/AbstractEntity.php:192-223 | a 404, 401 or 500 appends the status error, then still appends the body's errors and returns the body |
| EntityV2.BlankBodyAddsNoApiErrors | src/Crucial/Service/ChargifyV2/AbstractEntity.php:204-214 | a blank body returns [] and adds no error beyond the status error |
| EntityV2.ApiErrorsAppendedInOrder | src/Crucial/Service/ChargifyV2/AbstractEntity.php:219-223 | the k-th API error lands right after the existing errors, at position k |
| EntityV2.FailureLeavesError | src/Crucial/Service/ChargifyV2/AbstractEntity.php:177-202 | no response or a bad status always leaves the entity in error |
| EntityV2.ErrorFreeMeansAnswered | src/Crucial/Service/ChargifyV2/AbstractEntity.php:177-187 | an entity with no errors after classification was given a response |
| EntityV2.AbstractEntity.GetResponseArray | src/Crucial/Service/ChargifyV2/AbstractEntity.php:173-231 | the new errors and the result are those of `Classify` on the old errors |
| EntityV2.AbstractEntity.AppendAll | src/Crucial/Service/ChargifyV2/AbstractEntity.php:219-223 | the loop appends the values of the entries, in order |
| EntityV2.AbstractEntity.OffsetSet | src/Crucial/Service/ChargifyV2/AbstractEntity.php:243-250 | a null offset appends the value after the existing entries, which are kept; a key sets that key and leaves every other key's value; writing into null or false makes a new array; writing into any other scalar fails and leaves the data |
| EntityV2.AbstractEntity.OffsetExists | src/Crucial/Service/ChargifyV2/AbstractEntity.php:259-262 | an array offset is set when its key is present with a non-null value; a string offset when it is an integer within the string, counting negative ones from the end; any other data has no offsets |
| EntityV2.AbstractEntity.OffsetUnset | src/Crucial/Service/ChargifyV2/AbstractEntity.php:269-272 | unsetting in a string throws "Cannot unset string offsets", in an int or true "Cannot unset offset in a non-array variable", leaving the data; otherwise the offset is no longer set afterwards; on array data every other key keeps its value, and when the key occurs once exactly that entry is cut out, the rest in order |
| EntityV2.AbstractEntity.OffsetGet | src/Crucial/Service/ChargifyV2/AbstractEntity.php:281-284 | the stored value of an array, or the one-character string at a string offset; non-null exactly when the offset is set |
| EntityV2.AbstractEntity.IsError | src/Crucial/Service/ChargifyV2/AbstractEntity.php:149-152 | true exactly when at least one error was collected |
| EntityV2.AbstractEntity.OffsetGetAsDeclared | src/Crucial/Service/ChargifyV2/AbstractEntity.php:281-284 | with the declared `bool` return type, an unset offset or an array throws and any other value becomes its truth value |
| EntityV2.OffsetGetCoercesToBool | src/Crucial/Service/ChargifyV2/AbstractEntity.php:281-284 | a stored 42 comes back as true as declared, where 42 was meant |
| EntityV2.AbstractEntity.Count | src/Crucial/Service/ChargifyV2/AbstractEntity.php:350-353 | the number of entries of the data, which must be an array |
| EntityV2.AsBool | src/Crucial/Service/ChargifyV2/AbstractEntity.php:281 | coercion to `bool` refuses null and arrays and gives a value's truth |
| EntityV2.AsStringOrArray | src/Crucial/Service/ChargifyV2/AbstractEntity.php:96 | coercion to `string\|array` refuses exactly null |
| CallV2.ReadIssuesGet | src/Crucial/Service/ChargifyV2/Call.php:33 | the request is GET `calls/<callId>` with no query and no body |
| CallV2.Call.constructor | src/Crucial/Service/ChargifyV2/AbstractEntity.php:59-62 | a fresh call over the given service, with no parameters, no errors and empty data |
| CallV2.Call.ReadByChargifyId | src/Crucial/Service/ChargifyV2/Call.php:29-44 | the GET is sent and recorded; the errors are those of `getResponseArray`; the data is the `call` entry when error-free with status 200, the whole response array otherwise |
| CallV2.NotFoundIsError | src/Crucial/Service/ChargifyV2/Call.php:34-41 | a 404 leaves the call in error, with the whole response array as its data |
| CallV2.CleanOkUnwrapsCall | src/Crucial/Service/ChargifyV2/Call.php:37-38 | a clean 200 yields the record under `call` |
| EntityV1.AbstractEntity.constructor | src/Crucial/Service/Chargify/AbstractEntity.php:58-61 | a fresh entity has no parameters, no errors and empty data |
| EntityV1.AbstractEntity.SetParam | src/Crucial/Service/Chargify/AbstractEntity.php:81-86 | sets exactly that one parameter |
| EntityV1.AbstractEntity.GetParam | src/Crucial/Service/Chargify/AbstractEntity.php:95-98 | null exactly when the parameter is missing or PHP-empty (0, "", "0", [], false), the stored value otherwise |
| EntityV1.Note | src/Crucial/Service/Chargify/AbstractEntity.php:176-194 | writing a note under the SDK's key fails exactly when the error map cannot be written into; otherwise the note is there, every other entry of the error map and of the SDK's entry is kept, and [] is returned |
| EntityV1.Classify | src/Crucial/Service/Chargify/AbstractEntity.php:173-213 | no response or a bad status ends processing with [] and leaves the errors non-empty; only those two paths can throw |
| EntityV1.BadStatusStopsEarly | src/Crucial/Service/Chargify/AbstractEntity.php:188-194 | a 404, 401 or 500 records the code and returns [] without reading the body |
| EntityV1.ApiErrorsReplace | src/Crucial/Service/Chargify/AbstractEntity.php:208-210 | the body's non-empty `errors` replaces every earlier error |
| EntityV1.NoResponseRecordsNetworkingError | src/Crucial/Service/Chargify/AbstractEntity.php:176-180 | with no response a fresh entity records exactly `networking error => no response` under the SDK's key |
| EntityV1.BlankBodyKeepsErrors | src/Crucial/Service/Chargify/AbstractEntity.php:201-203 | a blank body returns [] and keeps the errors |
| EntityV1.ErrorFreeMeansAnswered | src/Crucial/Service/Chargify/AbstractEntity.php:176-180 | an error-free entity after classification was given a response |
| EntityV1.AbstractEntity.GetResponseArray | src/Crucial/Service/Chargify/AbstractEntity.php:173-213 | the new errors and the result are those of `Classify` on the old errors |
| EntityV1.AbstractEntity.OffsetSet | src/Crucial/Service/Chargify/AbstractEntity.php:225-232 | a null offset appends the value after the existing entries, which are kept; a key sets that key and leaves every other key's value; writing into null or false makes a new array; writing into any other scalar fails and leaves the data |
| EntityV1.AbstractEntity.OffsetExists | src/Crucial/Service/Chargify/AbstractEntity.php:241-244 | an array offset is set when its key is present with a non-null value; a string offset when it is an integer within the string, counting negative ones from the end; any other data has no offsets |
| EntityV1.AbstractEntity.OffsetUnset | src/Crucial/Service/Chargify/AbstractEntity.php:251-254 | unsetting in a string throws "Cannot unset string offsets", in an int or true "Cannot unset offset in a non-array variable", leaving the data; otherwise the offset is no longer set afterwards; on array data every other key keeps its value, and when the key occurs once exactly that entry is cut out, the rest in order |
| EntityV1.AbstractEntity.OffsetGet | src/Crucial/Service/Chargify/AbstractEntity.php:263-266 | the stored value of an array, or the one-character string at a string offset; null exactly for an unset offset |
| EntityV1.AbstractEntity.IsError | src/Crucial/Service/Chargify/AbstractEntity.php:148-151 | false exactly when the errors are PHP-empty: null, false, 0, "", "0" or the empty array |
| EntityV1.AbstractEntity.Count | src/Crucial/Service/Chargify/AbstractEntity.php:331-334 | the number of entries of the data |
| Php.ReadKey | src/Crucial/Service/Chargify/Subscription.php:387 | PHP 8's unguarded `$v[k]`: a TypeError exactly for a string key into a string; a missing key and any offset of null, a boolean or an integer give null; an integer offset into a string gives its character, or "" outside it |
| EntityV1.Projection | src/Crucial/Service/Chargify/Subscription.php:668-676 | fails with the TypeError exactly when some element is a string; otherwise one element per element of the response, the j-th being that element's entry under the key |
| EntityV1.ListedData | src/Crucial/Service/Chargify/Subscription.php:668-676 | the list 0..n-1 of the projected values, or the TypeError of a string element |
| EntityV1.NormalizeResponseArray | src/Crucial/Service/Chargify/Subscription.php:668-676 | the loop builds the list 0..n-1 of the projected values, in order, and throws at the first string element |
| EntityV1.NewData | src/Crucial/Service/Chargify/Subscription.php:386-390 | whatever the action's rule, an entity in error gets empty data; an error-free record action gets the record, and throws the TypeError exactly when the response array is a string; only reads can throw |
| EntityV1.ErrorStatusEmptiesData | src/Crucial/Service/Chargify/Subscription.php:386-390 | a 404, 401 or 500 leaves every action with empty data |
| EntityV1.ListedKeepsOrder | src/Crucial/Service/Chargify/Subscription.php:629-633 | when no element is a string, a listed action's data has one entry per response element, in order, at index j |
| EntityV1.StringElementStopsListing | src/Crucial/Service/Chargify/Subscription.php:667-676 | a string element in the response makes a listed action throw instead of setting the data |
| EntityV1.Fetch | src/Crucial/Service/Chargify/AbstractEntity.php:173-213 | a request that cannot be prepared throws; otherwise the response is classified against the current errors |
| EntityV1.AbstractEntity.Perform | src/Crucial/Service/Chargify/Subscription.php:380-393 | the shared body of an action: the last response is recorded, the errors are classified, and the data follows the action's rule; when the request, the classification or the record read throws, the data is left alone |
| Classification.BadStatusStopsOnlyVersion1 | src/Crucial/Service/Chargify/AbstractEntity.php:188-194 | on a bad status with body errors, version 1 returns [] while version 2 returns the body and appends its errors after the status error |
| Classification.ApiErrorsReplaceOrAppend | src/Crucial/Service/ChargifyV2/AbstractEntity.php:219-223 | version 1 replaces the errors with the API's, version 2 appends them |
| Subscription.IntOfBool | src/Crucial/Service/Chargify/Subscription.php:261-266 | the stored flag is 1 for true and 0 for false |
| Subscription.Subscription.SetCancelAtEndOfPeriod | src/Crucial/Service/Chargify/Subscription.php:261-266 | stores 1 or 0 under `cancel_at_end_of_period` |
| Subscription.Subscription.SetIncludeTrial | src/Crucial/Service/Chargify/Subscription.php:317-322 | stores the value under `include_trial` |
| Subscription.Subscription.Read | src/Crucial/Service/Chargify/Subscription.php:380-393 | GET `subscriptions/<id>`; the data is the `subscription` record |
| Subscription.Subscription.Create | src/Crucial/Service/Chargify/Subscription.php:410-424 | POST the parameters under `subscription` |
| Subscription.Subscription.CancelImmediately | src/Crucial/Service/Chargify/Subscription.php:434-451 | DELETE with no body when there are no parameters, else the parameters under `subscription` |
| Subscription.Subscription.CancelDelayed | src/Crucial/Service/Chargify/Subscription.php:462-478 | sets `cancel_at_end_of_period` to 1, then PUTs the parameters |
| Subscription.ReactivateQuery | src/Crucial/Service/Chargify/Subscription.php:493-497 | `include_trial` is sent exactly when the parameter reads back as an integer |
| Subscription.ZeroTrialNeverSent | src/Crucial/Service/Chargify/Subscription.php:493-497 | a stored 0 is not sent, because `getParam` reads it back as null; any other integer is |
| Subscription.NonIntegerTrialNeverSent | src/Crucial/Service/Chargify/Subscription.php:493-497 | a stored string "1" is not sent either |
| Subscription.ReactivateOutcome | src/Crucial/Service/Chargify/Subscription.php:502-519 | no response throws; a non-200 appends the response array to the kept errors, or throws when they are a scalar that cannot be appended to, and leaves empty data; an error-free entity had a 200 and gets the record; a clean 200 whose response array is a string throws the TypeError |
| Subscription.Subscription.Reactivate | src/Crucial/Service/Chargify/Subscription.php:488-522 | PUT `subscriptions/<id>/reactivate` with an empty body and the include_trial query, then `ReactivateOutcome`; when that throws, including on a string response array, the data is left alone |
| Subscription.Subscription.ResetBalance | src/Crucial/Service/Chargify/Subscription.php:535-548 | GET `subscriptions/<id>/reset_balance`, the `subscription` record |
| Subscription.Subscription.Update | src/Crucial/Service/Chargify/Subscription.php:560-574 | PUT the parameters under `subscription` |
| Subscription.Subscription.Migrate | src/Crucial/Service/Chargify/Subscription.php:598-612 | POST `subscriptions/<id>/migrations` with the parameters under `migration` |
| Subscription.Subscription.ListSubscriptions | src/Crucial/Service/Chargify/Subscription.php:623-636 | GET `subscriptions` with the parameters as the query, the data a list of `subscription` records |
| Subscription.Subscription.ListByCustomer | src/Crucial/Service/Chargify/Subscription.php:646-659 | GET `customers/<id>/subscriptions`, the data a list of records |
| Subscription.RecordRule | src/Crucial/Service/Chargify/Subscription.php:386-390 | a bad status leaves empty data; an error-free answer gives the `subscription` record, or throws when the response array is a string |
| Subscription.StringBodyThrows | src/Crucial/Service/Chargify/Subscription.php:385-390 | a 200 with the JSON string "ok" passes `getResponseArray` as that string, and reading its `subscription` then throws |
| Component.ComponentKey | src/Crucial/Service/Chargify/Component.php:349-362 | the key is empty exactly for an unknown type, and otherwise is the type without its final "s" |
| Component.Component.ListSubscription | src/Crucial/Service/Chargify/Component.php:164-178 | GET the subscription's components, listed under `component` |
| Component.Component.ReadSubscription | src/Crucial/Service/Chargify/Component.php:188-202 | GET one component of a subscription |
| Component.Component.SetQuantityAllocation | src/Crucial/Service/Chargify/Component.php:213-227 | PUT the parameters under `component`, read back from `component` |
| Component.Component.CreateQuantityAllocation | src/Crucial/Service/Chargify/Component.php:239-253 | POST `.../allocations` under `allocation`, read back from `allocation` |
| Component.Component.CreateUsage | src/Crucial/Service/Chargify/Component.php:265-280 | POST `.../usages` under `usage`, read back from `usage` |
| Component.Component.ListProductFamily | src/Crucial/Service/Chargify/Component.php:289-303 | GET a family's components, listed |
| Component.Component.ReadProductFamily | src/Crucial/Service/Chargify/Component.php:313-327 | GET one component of a family |
| Component.Component.CreateComponent | src/Crucial/Service/Chargify/Component.php:345-375 | POST to `product_families/<id>/<type>` with the parameters under the type's key; data only on a 201 |
| Component.CreatedNeeds201 | src/Crucial/Service/Chargify/Component.php:368-372 | any status but 201 leaves the data empty |
| Component.CreatedWith201 | src/Crucial/Service/Chargify/Component.php:368-372 | a clean 201 yields the `component` record, or the TypeError when the body decodes to a string |
| Metadata.KeyValue | src/Crucial/Service/Chargify/Metadata.php:23 | an integer key stays an integer, a string key a string |
| Metadata.Entries | src/Crucial/Service/Chargify/Metadata.php:22-25 | one name/value entry per parameter, in order |
| Metadata.MetadataList | src/Crucial/Service/Chargify/Metadata.php:22-25 | the loop builds the list of those entries, indexed from 0 |
| Metadata.EntryNamesParameter | src/Crucial/Service/Chargify/Metadata.php:22-25 | the j-th entry of the list names the j-th parameter's key and carries its value |
| Metadata.Metadata.Create | src/Crucial/Service/Chargify/Metadata.php:18-37 | POST `subscriptions/<id>/metadata` with `{metadata: list}`; the data is the whole response array when error-free |

## Left out

- The HTTP client is left out: Guzzle's handler stack, redirects, timeouts and authentication on the wire. The client options are recorded as values, and sending is the parameter `send`.
- SHA-1, HMAC-SHA1 and `mt_rand` are parameters. The model proves nothing that needs collision resistance, such as "changing any character of the data changes the signature".
- JSON encoding and decoding are not modelled. A decoded body is given with the response, and an encoded body is `JsonOf` of the array.
- PHP floats and numeric-string array keys are not modelled. A key is an integer or a string as given.
- Direct.Direct.IsValidResponseSignatureLoose: PHP's loose `==` is modelled only for strings of decimal digits, optionally followed by one `e` or `E` and more digits, compared as exact non-negative integers. That covers the counterexample. Numeric strings with signs, fractions or leading blanks, and PHP's float rounding, are outside it.
- `array_merge_recursive` is modelled only for the one call site, merging a single `redirect_uri` into the data.
- `http_build_query` escapes with `urlencode` per character. Characters above 255 are kept as they are instead of being UTF-8 encoded, and a numeric prefix and the encoding type are not modelled.
- The iterator methods (`rewind`, `current`, `key`, `next`, `valid`) are left out: they depend on PHP's internal array pointer.
- Version 1 `arrayToObject` is left out.
- Plain getters are not modelled as members, because the class fields stand for them. These are `getParams`, `getErrors`, `getBaseUrl`, `getApiId`, `getNonce`, `getTimeStamp`, `getData`, `getLastResponse` and the like.
- `Note` writes into an error map that PHP might autovivify from `false` with a deprecation. The model treats `false` and `null` alike as an empty array to write into, and any other scalar as an error.
- The remaining entity classes (customers, products, coupons, charges and the rest), the Webhook reader and the test helpers are not part of this model. They are thin parameter setters over the same base, or I/O.
- Direct.NonDigestRejected: holds for the corrected strict check only. For the check as written it is false on numeric strings, as Direct.LooseComparisonAcceptsZero shows. Direct.NonNumericNonDigestRejected states the part that holds for the check as written.
- EntityV1.AbstractEntity.OffsetSet: writing into string data is refused like writing into any scalar. PHP would write one character at an integer offset, pad with spaces past the end, and throw on `[]` or a non-integer offset. An append also takes its key from the entries present: one past the largest integer key, or 0. PHP keeps a next-free counter that `unset` never lowers, so after `$e[] = 'a'; $e[] = 'b'; unset($e[1]);` the next append gets key 2 in PHP and key 1 here. Negative keys are treated as PHP before 8.3 treats them.
- EntityV2.AbstractEntity.OffsetSet: the same string-offset writes are refused as in version 1, and an append after an unset can reuse the freed key, where PHP's next-free counter gives a new one.
- Php.ReadKey: a string key into a string always throws. PHP 8 would read a character for a numeric or leading-numeric key; the keys this SDK reads are fixed words. The message is PHP 8.1's wording.
- Entity offsets in string data take integer keys only. PHP would also accept numeric strings there, and floats and booleans cast to integers.
- Direct.Direct.SignupAction: the contract gives the URL only for the service's fixed base URL, which is the only one the service ever has.
- Direct.Direct.CardUpdateAction: the same, for the fixed base URL.

## Findings

| source | as written | input that shows it | evidently intended | confidence | as-written member | corrected member |
|---|---|---|---|---|---|---|
| src/Crucial/Service/ChargifyV2/Direct.php:334-337 | the response signature is compared with PHP's loose `==` | expected signature "0e" followed by 38 digits, given signature "0": both read as the number 0 and compare equal | accept exactly the recomputed signature (`===` or `hash_equals`) | not executed | Direct.LooseComparisonAcceptsZero | Direct.StrictComparisonExact |
| src/Crucial/Service/ChargifyV2/Direct/Utility/AuthRequest.php:57-58 | `test()` calls `getBody()` on what `request()` returned, which is `false` when the transport gave no response | a RequestException without a response: `test()` throws an Error instead of answering | a failed probe answers false | not executed | Direct.TransportFailureThrows | Direct.ProbeResult |
| src/Crucial/Service/ChargifyV2/AbstractEntity.php:96-99 | `getParam` returns null through a `string\|array` return type | reading a parameter that was never set, or was set to 0: a TypeError | null for an empty parameter, as in version 1 | not executed | EntityV2.UnsetParamThrows | EntityV2.AbstractEntity.GetParam |
| src/Crucial/Service/ChargifyV2/AbstractEntity.php:281-284 | `offsetGet` declares a `bool` return type | data `['id' => 42]`: `$entity['id']` is true, not 42 | the stored value, as in version 1 | not executed | EntityV2.OffsetGetCoercesToBool | EntityV2.AbstractEntity.OffsetGet |
