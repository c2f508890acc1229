# FCMService in Dafny

A model of `FCMService`, the Laravel helper that sends one Firebase Cloud
Messaging (FCM) HTTP v1 push notification. The model covers two parts of the service:

- **`preparePayload`** builds the `{"message": {...}}` envelope. It always holds the
  device token and the `notification` title and body. An icon that is not PHP-empty adds
  three platform blocks (`webpush`, `android`, `apns`) that share one `url(icon)`.
  Non-empty `data` is attached as it is. Data that is a PHP list is refused with
  `InvalidArgumentException('FCM "data" must be an associative array.')`.
- **`sendFCM`** runs three steps in order: get the access token, build the payload, and
  POST it with curl. The first exception becomes `{success: false, error: message}`.
  If all three steps succeed, the result is `{success: true, response: json_decode(body)}`.

The files are:

- `wrappers.dfy`: `Option` (PHP null) and `Result` (a normal return, or a thrown exception).
- `php_array.dfy`: PHP arrays as ordered `(key, value)` sequences. It also defines
  `$a[$k]` (`Lookup`), `$a[$k] = $v` (`Assign`), `array_values`, `===` and `empty()`.
- `fcm_service.dfy`: the service. `PreparePayload`, `GetAccessToken`, `BuildRequest`,
  `CurlOutcome` and `SendFcm` are pure functions.
  The collaborators whose code is not part of this model are parameters:
  - `url()`
  - `json_decode`
  - the outcome of the Google OAuth exchange
  - the curl transfer
- `fcm_properties.dfy`: the shape of the payload.
- `send_fcm_properties.dfy`: the ordering, short-circuiting and error messages of `sendFCM`.

Three points of the code are worth stating outright:

- An icon of `"0"` is PHP-empty, so it adds no platform blocks, exactly like a null or
  `""` icon.
- `data` values are attached without conversion; the code does not force them to
  strings, and they may be any PHP value.
- An associative array is any non-empty array that is not a list. Keys `[1 => ...]` or
  `[1 => ..., 0 => ...]` pass the check, because `array_values($data) === $data` is false
  for them.

`sendFCM` returns a `Run`. A `Run` holds the result and the request that was POSTed,
if there was one. This makes "no request is sent" something the lemmas can state.

## Model

| member | source | states |
|---|---|---|
| `PhpArray.Assign` | src/FCMService.php:109-136 | After `$a[$k] = $v`, `$a[$k]` reads `v` and every other key reads as before. |
| `PhpArray.AssignKeys` | src/FCMService.php:109-136 | The key order is unchanged if `k` was present; otherwise `k` is appended last. |
| `PhpArray.AssignKeepsKeysDistinct` | src/FCMService.php:109-136 | Writing an entry never creates a duplicate key. |
| `PhpArray.ArrayValuesFixedIffList` | src/FCMService.php:132 | `array_values($a) === $a` holds exactly when the keys are 0, 1, …, n-1 in this order (a list). |
| `FcmService.PreparePayload` | src/FCMService.php:95-140 | The builder throws exactly when `data` is a non-empty list. The exception is then `InvalidArgumentException` with the associative-array message. |
| `FcmService.GetAccessToken` | src/FCMService.php:70-83 | A reply without an access token gives "Failed to retrieve access token.". A reply with a token returns it unchanged. A client exception passes through with its own message. |
| `FcmService.BuildRequest` | src/FCMService.php:152-164 | The POST goes to `https://fcm.googleapis.com/v1/projects/{id}/messages:send`. It carries the headers `Authorization: Bearer <token>` and `Content-Type: application/json`, and the payload. |
| `FcmService.CurlOutcome` | src/FCMService.php:166-174 | A truthy curl error throws "Curl Error: " + error. Otherwise the raw body is returned and the status is never consulted. |
| `FcmService.SendFcm` | src/FCMService.php:43-62 | A request is posted exactly when the token step and the payload step both succeed, and it is built from their results. The result is `Sent` exactly when that request reports no curl error, and then holds the decoded body. |
| `FcmProperties.AttachIconKeys` | src/FCMService.php:105-128 | Adding the icon appends `webpush`, `android` and `apns` in that order, and the keys stay distinct. |
| `FcmProperties.AttachIconLookups` | src/FCMService.php:105-128 | All three blocks hold the one icon URL, and no other entry changes. |
| `FcmProperties.MessageBeforeDataKeys` | src/FCMService.php:97-128 | Before `data` is handled, the message keys are `token`, `notification` and, with an icon, the three blocks. `data` is not among them. |
| `FcmProperties.MessageBeforeDataText` | src/FCMService.php:97-103 | The token and the notification text are written once and survive the icon step. |
| `FcmProperties.MessageBeforeDataBlocks` | src/FCMService.php:105-128 | The platform blocks are present exactly when the icon is not PHP-empty. |
| `FcmProperties.PayloadEnvelope` | src/FCMService.php:139 | A successful payload is the one-entry array `["message" => message]`. |
| `FcmProperties.FinalMessageKeys` | src/FCMService.php:97-137 | The message built before wrapping has the keys `token`, `notification`, the three icon blocks if there is an icon, and `data` if `data` is non-empty, in that order and none twice. |
| `FcmProperties.PayloadMessageKeys` | src/FCMService.php:97-139 | The message keys are exactly `token`, `notification`, then the three icon blocks if there is an icon, then `data` if `data` is non-empty. No key appears twice. |
| `FcmProperties.FinalMessageEntries` | src/FCMService.php:97-137 | Every message entry, key by key: the inputs, `url(icon)` in each block or no block, and `data` exactly or no `data` key. |
| `FcmProperties.PayloadCarriesTokenAndNotification` | src/FCMService.php:97-103 | `message.token`, `message.notification.title` and `message.notification.body` equal the inputs. |
| `FcmProperties.NoIconNoPlatformBlocks` | src/FCMService.php:105 | A null, `""` or `"0"` icon leaves out `webpush`, `android` and `apns`. |
| `FcmProperties.IconSharedByPlatformBlocks` | src/FCMService.php:105-127 | With an icon, `webpush.notification.icon`, `android.notification.image` and `apns.fcm_options.image` all equal `url(icon)`. |
| `FcmProperties.EmptyDataNoDataKey` | src/FCMService.php:130-137 | Empty `data` never fails and adds no `data` key, whatever the icon. |
| `FcmProperties.ListDataRejected` | src/FCMService.php:130-134 | Non-empty list `data` gives the associative-array `InvalidArgumentException` and no payload. |
| `FcmProperties.AssociativeDataAttachedVerbatim` | src/FCMService.php:130-136 | Non-empty non-list `data` is attached as `message.data` exactly: the same pairs, the same order and unconverted values. |
| `SendFcmProperties.MissingTokenStopsBeforePayload` | src/FCMService.php:46-50 | A reply without `access_token` gives `Failed("Failed to retrieve access token.")` with no POST. This holds even when `data` is a list. |
| `SendFcmProperties.OAuthExceptionReported` | src/FCMService.php:46-60 | An exception from the Google client gives `Failed` with that message and no POST. |
| `SendFcmProperties.ListDataStopsBeforeSend` | src/FCMService.php:48-60 | With a token, list `data` gives `Failed` with the associative-array message and no POST. |
| `SendFcmProperties.CurlErrorReported` | src/FCMService.php:48-60 | Once the token and payload succeed, one POST goes to the project endpoint with the bearer token and the built payload. A curl error `e` then gives `Failed("Curl Error: " + e)`. |
| `SendFcmProperties.SuccessExactlyWhenAllStepsSucceed` | src/FCMService.php:43-62 | `Sent` holds exactly when the token is present, `data` is not a non-empty list and curl reports no error. The response is then `json_decode` of the raw body. |
| `SendFcmProperties.FailureMessages` | src/FCMService.php:56-60 | A failure carries one of four messages: the OAuth exception's message, the missing-token message, the associative-array message, or "Curl Error: " + the POST's curl error. |
| `SendFcmProperties.HttpStatusIgnored` | src/FCMService.php:166-174 | Two transports that agree on body and error give the same run, whatever HTTP statuses they report. |
| `SendFcmProperties.PlainPayloadBuilt` | src/FCMService.php:95-140 | With no icon and one string-keyed `data` entry, such as `("abc", "Hi", "There", {"k": "v"})`, the payload is `{"message": {"token": …, "notification": {"title": …, "body": …}, "data": {…}}}` in that order. |
| `SendFcmProperties.EndToEndExample` | src/FCMService.php:43-62 | For such a call with a token and no curl error, the result is `Sent` and the POST carries exactly that payload. |

## Left out

- The constructor and `setCredentialsFilePath` (src/FCMService.php:13-31). They read
  `env()`, inspect `request()->root()` and fetch the credentials file over HTTP. This is
  framework I/O; the project id they set is a parameter of `SendFcm`.
- The Google client calls inside `getAccessToken` (src/FCMService.php:72-77): the
  credentials, the `firebase.messaging` scope and the JWT-bearer exchange. They belong
  to a foreign library. Their outcome is the `OAuthReply` parameter.
- `FcmService.GetAccessToken`: the reply's `access_token` entry is reduced to
  `Option<string>`.
  - `isset` treats a null entry as missing, and the model folds it into `None`.
  - PHP's coercion of a non-string token to the `string` return type is not modelled.
  - The `TypeError` that an array token would raise is not modelled either.
- The curl options are not modelled: `RETURNTRANSFER`, and `SSL_VERIFYPEER` disabled at
  src/FCMService.php:163. They configure the transport, which is the `curl` parameter.
  The curl handle's life cycle is not modelled either.
- `FcmService.CurlOutcome`: the case where `curl_exec` returns `false` with an empty
  error string is not modelled. The body is always a string.
- `json_encode` of the payload (src/FCMService.php:164). A `Request` carries the payload
  array itself, not its JSON text.
- `json_decode` and `url()` are uninterpreted function parameters. Their results, such
  as `null` for a body that is not JSON, are whatever those functions return.
- PHP floats and objects are not among the modelled `Value`s.
- PHP's key normalisation is not modelled. PHP stores a string key that is a canonical
  decimal integer (`"0"`, `"17"`, `"-3"`) as that integer, so `["0" => "v"]` is the list
  `[0 => "v"]`. A `StrKey` holding such a string stands for no PHP array, and the lemmas
  that quantify over arbitrary `data` say nothing about arrays holding one.
  `SendFcmProperties.PlainPayloadBuilt` and `SendFcmProperties.EndToEndExample` exclude
  such keys (`PhpArray.IsIntegerKeyString`).
- The data arrays are not assumed to have distinct keys. PHP guarantees that, and no
  property here needs it.
- Exceptions outside `\Exception`, such as `TypeError` from the declared parameter
  types, are not modelled. They would escape `sendFCM` uncaught.
