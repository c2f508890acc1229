/**
 * FCMService: builds a Firebase Cloud Messaging HTTP v1 message for one device
 * and sends it, turning every failure along the way into an error result.
 *
 * The collaborators the service cannot see into are parameters: the Laravel
 * helper `url()`, PHP's `json_decode`, the outcome of the Google OAuth exchange
 * and the curl transfer.
 */
module FcmService {
  import opened Wrappers
  import opened PhpArray

  /** The classes of exception the service throws. */
  datatype ExceptionClass = GenericException | InvalidArgumentException

  /** A thrown exception, as `catch (\Exception $e)` sees it. */
  datatype Exception = Exception(kind: ExceptionClass, message: string)

  const ACCESS_TOKEN_MISSING := "Failed to retrieve access token."
  const DATA_NOT_ASSOCIATIVE := "FCM \"data\" must be an associative array."
  const CURL_ERROR_PREFIX := "Curl Error: "

  function K(s: string): Key { StrKey(s) }

  // ---------------------------------------------------------------- payload

  /** The `notification` block: the text shown to the user. */
  function NotificationBlock(title: string, body: string): Value {
    VArr([(K("title"), VStr(title)), (K("body"), VStr(body))])
  }

  /** The message every payload starts from: the device token and the notification text. */
  function BaseMessage(fcmToken: string, title: string, body: string): Arr {
    [(K("token"), VStr(fcmToken)), (K("notification"), NotificationBlock(title, body))]
  }

  /** Web push shows the icon as `notification.icon`. */
  function WebpushBlock(iconUrl: string): Value {
    VArr([(K("notification"), VArr([(K("icon"), VStr(iconUrl))]))])
  }

  /** Android shows it as `notification.image`. */
  function AndroidBlock(iconUrl: string): Value {
    VArr([(K("notification"), VArr([(K("image"), VStr(iconUrl))]))])
  }

  /** APNs has no icon field; the image goes under `fcm_options.image`. */
  function ApnsBlock(iconUrl: string): Value {
    VArr([(K("fcm_options"), VArr([(K("image"), VStr(iconUrl))]))])
  }

  /** The three platform blocks, written in this order, all carrying the one URL. */
  function AttachIcon(message: Arr, iconUrl: string): Arr {
    var withWebpush := Assign(message, K("webpush"), WebpushBlock(iconUrl));
    var withAndroid := Assign(withWebpush, K("android"), AndroidBlock(iconUrl));
    Assign(withAndroid, K("apns"), ApnsBlock(iconUrl))
  }

  /** The message before `data` is considered: the base entries and, when the icon is
      not PHP-empty, the platform blocks. `url` is the framework's `url()` helper. */
  function MessageBeforeData(fcmToken: string, title: string, body: string,
                             icon: Option<string>, url: string -> string): Arr
  {
    var base := BaseMessage(fcmToken, title, body);
    if !NullableStringIsEmpty(icon) then AttachIcon(base, url(icon.value)) else base
  }

  /** The whole message once the data check has passed: non-empty `data` is written last. */
  function FinalMessage(fcmToken: string, title: string, body: string,
                        icon: Option<string>, data: Arr, url: string -> string): Arr
  {
    var before := MessageBeforeData(fcmToken, title, body, icon, url);
    if |data| > 0 then Assign(before, K("data"), VArr(data)) else before
  }

  /**
   * `preparePayload`: the `{"message": {...}}` envelope, or the exception thrown
   * when non-empty `data` is a list.
   */
  function PreparePayload(fcmToken: string, title: string, body: string,
                          icon: Option<string>, data: Arr, url: string -> string)
    : (r: Result<Arr, Exception>)
    ensures r.Failure? <==> |data| > 0 && IsList(data)
    ensures r.Failure? ==> r.error == Exception(InvalidArgumentException, DATA_NOT_ASSOCIATIVE)
  {
    ArrayValuesFixedIffList(data);
    if |data| > 0 && ArrayValues(data) == data then
      Failure(Exception(InvalidArgumentException, DATA_NOT_ASSOCIATIVE))
    else
      Success([(K("message"), VArr(FinalMessage(fcmToken, title, body, icon, data, url)))])
  }

  // ---------------------------------------------------------------- access token

  /**
   * What the Google client produced for the service-account token exchange:
   * either it threw, or `getAccessToken()` returned a token array whose
   * `access_token` entry is given here (`None` when that entry is missing or null).
   */
  datatype OAuthReply = OAuthThrew(message: string) | OAuthReturned(accessToken: Option<string>)

  /** `getAccessToken`: the bearer token, or the exception that ends the send. */
  function GetAccessToken(reply: OAuthReply): (r: Result<string, Exception>)
    ensures reply.OAuthReturned? ==>
      (r.Success? <==> reply.accessToken.Some?) &&
      (r.Success? ==> r.value == reply.accessToken.value) &&
      (r.Failure? ==> r.error == Exception(GenericException, ACCESS_TOKEN_MISSING))
    ensures reply.OAuthThrew? ==> r.Failure? && r.error.message == reply.message
  {
    match reply
    case OAuthThrew(m) => Failure(Exception(GenericException, m))
    case OAuthReturned(None) => Failure(Exception(GenericException, ACCESS_TOKEN_MISSING))
    case OAuthReturned(Some(t)) => Success(t)
  }

  // ---------------------------------------------------------------- transport

  /** The POST that `sendRequest` hands to curl; the body is `json_encode(payload)`. */
  datatype Request = Request(url: string, headers: seq<string>, payload: Arr)

  /** What curl reports for one transfer: the HTTP status, the raw response body
      and `curl_error()` ("" when the transfer succeeded). */
  datatype CurlReply = CurlReply(status: int, body: string, error: string)

  /** The FCM v1 send endpoint of a Firebase project. */
  function Endpoint(projectId: string): string {
    "https://fcm.googleapis.com/v1/projects/" + projectId + "/messages:send"
  }

  function BuildRequest(projectId: string, accessToken: string, payload: Arr): (req: Request)
    ensures req.url == Endpoint(projectId)
    ensures req.headers == ["Authorization: Bearer " + accessToken, "Content-Type: application/json"]
    ensures req.payload == payload
  {
    Request(Endpoint(projectId),
            ["Authorization: Bearer " + accessToken, "Content-Type: application/json"],
            payload)
  }

  /** The end of `sendRequest`: a non-empty curl error becomes an exception, otherwise
      the raw body is returned whatever the HTTP status. */
  function CurlOutcome(reply: CurlReply): (r: Result<string, Exception>)
    ensures r.Failure? <==> !StringIsEmpty(reply.error)
    ensures r.Failure? ==> r.error == Exception(GenericException, CURL_ERROR_PREFIX + reply.error)
    ensures r.Success? ==> r.value == reply.body
  {
    if !StringIsEmpty(reply.error) then
      Failure(Exception(GenericException, CURL_ERROR_PREFIX + reply.error))
    else
      Success(reply.body)
  }

  // ---------------------------------------------------------------- sendFCM

  /** The array `sendFCM` returns: `['success' => true, 'response' => ...]` or
      `['success' => false, 'error' => ...]`. */
  datatype SendResult = Sent(response: Value) | Failed(error: string)

  /** One call of `sendFCM`: its result and the POST it issued, if it got that far. */
  datatype Run = Run(result: SendResult, posted: Option<Request>)

  /**
   * `sendFCM`: access token, then payload, then POST; the first exception becomes
   * `Failed` with its message. `curl` is the transfer, `jsonDecode` is
   * `json_decode($response, true)`.
   */
  function SendFcm(projectId: string, oauth: OAuthReply,
                   fcmToken: string, title: string, body: string, icon: Option<string>, data: Arr,
                   url: string -> string, curl: Request -> CurlReply, jsonDecode: string -> Value)
    : (run: Run)
    ensures run.posted.Some? <==>
      GetAccessToken(oauth).Success? && PreparePayload(fcmToken, title, body, icon, data, url).Success?
    ensures run.posted.Some? ==>
      run.posted.value == BuildRequest(projectId, GetAccessToken(oauth).value,
                                       PreparePayload(fcmToken, title, body, icon, data, url).value)
    ensures run.result.Sent? <==> run.posted.Some? && StringIsEmpty(curl(run.posted.value).error)
    ensures run.result.Sent? ==> run.result.response == jsonDecode(curl(run.posted.value).body)
  {
    match GetAccessToken(oauth)
    case Failure(e) => Run(Failed(e.message), None)
    case Success(accessToken) =>
      match PreparePayload(fcmToken, title, body, icon, data, url)
      case Failure(e) => Run(Failed(e.message), None)
      case Success(payload) =>
        var request := BuildRequest(projectId, accessToken, payload);
        match CurlOutcome(curl(request))
        case Failure(e) => Run(Failed(e.message), Some(request))
        case Success(response) => Run(Sent(jsonDecode(response)), Some(request))
  }
}
