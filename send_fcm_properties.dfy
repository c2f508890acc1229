/**
 * The pipeline of `sendFCM`: access token, then payload, then POST. The first
 * step that throws decides the error message, and nothing after it happens.
 */
module SendFcmProperties {
  import opened Wrappers
  import opened PhpArray
  import opened FcmService

  /** A token reply without `access_token` ends the call with the token error, before the
      payload is checked (even list `data` does not get its own message) and without a POST. */
  lemma MissingTokenStopsBeforePayload(projectId: string, fcmToken: string, title: string, body: string,
                                       icon: Option<string>, data: Arr, url: string -> string,
                                       curl: Request -> CurlReply, jsonDecode: string -> Value)
    ensures SendFcm(projectId, OAuthReturned(None), fcmToken, title, body, icon, data, url, curl, jsonDecode)
         == Run(Failed(ACCESS_TOKEN_MISSING), None)
  {
  }

  /** An exception thrown by the Google client surfaces with its own message, again with no POST. */
  lemma OAuthExceptionReported(projectId: string, message: string, fcmToken: string, title: string, body: string,
                               icon: Option<string>, data: Arr, url: string -> string,
                               curl: Request -> CurlReply, jsonDecode: string -> Value)
    ensures SendFcm(projectId, OAuthThrew(message), fcmToken, title, body, icon, data, url, curl, jsonDecode)
         == Run(Failed(message), None)
  {
  }

  /** With a token, list `data` fails with the associative-array message and nothing is sent. */
  lemma ListDataStopsBeforeSend(projectId: string, accessToken: string, fcmToken: string, title: string,
                                body: string, icon: Option<string>, data: Arr, url: string -> string,
                                curl: Request -> CurlReply, jsonDecode: string -> Value)
    requires |data| > 0 && IsList(data)
    ensures SendFcm(projectId, OAuthReturned(Some(accessToken)), fcmToken, title, body, icon, data, url, curl, jsonDecode)
         == Run(Failed(DATA_NOT_ASSOCIATIVE), None)
  {
  }

  /** When token and payload are fine, exactly one POST goes to the project's endpoint with
      the bearer token; a curl error `e` then yields "Curl Error: " + e. */
  lemma CurlErrorReported(projectId: string, accessToken: string, fcmToken: string, title: string,
                          body: string, icon: Option<string>, data: Arr, url: string -> string,
                          curl: Request -> CurlReply, jsonDecode: string -> Value)
    requires !(|data| > 0 && IsList(data))
    ensures var run := SendFcm(projectId, OAuthReturned(Some(accessToken)), fcmToken, title, body, icon, data, url, curl, jsonDecode);
      && run.posted.Some?
      && run.posted.value.url == "https://fcm.googleapis.com/v1/projects/" + projectId + "/messages:send"
      && run.posted.value.headers[0] == "Authorization: Bearer " + accessToken
      && run.posted.value.payload == PreparePayload(fcmToken, title, body, icon, data, url).value
      && (!StringIsEmpty(curl(run.posted.value).error) ==>
            run.result == Failed(CURL_ERROR_PREFIX + curl(run.posted.value).error))
  {
  }

  /** `sendFCM` succeeds exactly when the token is present, the data is not a non-empty list
      and curl reports no error; the response is then the decoded raw body. */
  lemma SuccessExactlyWhenAllStepsSucceed(projectId: string, oauth: OAuthReply, fcmToken: string, title: string,
                                          body: string, icon: Option<string>, data: Arr, url: string -> string,
                                          curl: Request -> CurlReply, jsonDecode: string -> Value)
    ensures var run := SendFcm(projectId, oauth, fcmToken, title, body, icon, data, url, curl, jsonDecode);
      && (run.result.Sent? <==>
            oauth.OAuthReturned? && oauth.accessToken.Some? && !(|data| > 0 && IsList(data)) &&
            StringIsEmpty(curl(run.posted.value).error))
      && (run.result.Sent? ==> run.result.response == jsonDecode(curl(run.posted.value).body))
  {
  }

  /** A failed call carries one of the four messages the pipeline can produce. */
  lemma FailureMessages(projectId: string, oauth: OAuthReply, fcmToken: string, title: string,
                        body: string, icon: Option<string>, data: Arr, url: string -> string,
                        curl: Request -> CurlReply, jsonDecode: string -> Value)
    ensures var run := SendFcm(projectId, oauth, fcmToken, title, body, icon, data, url, curl, jsonDecode);
      run.result.Failed? ==>
        || (oauth.OAuthThrew? && run.result.error == oauth.message)
        || run.result.error == ACCESS_TOKEN_MISSING
        || run.result.error == DATA_NOT_ASSOCIATIVE
        || (run.posted.Some? && run.result.error == CURL_ERROR_PREFIX + curl(run.posted.value).error)
  {
  }

  /** The HTTP status is never looked at: two transports that return the same body and the
      same error for every request give the same run, whatever statuses they report. */
  lemma HttpStatusIgnored(projectId: string, oauth: OAuthReply, fcmToken: string, title: string,
                          body: string, icon: Option<string>, data: Arr, url: string -> string,
                          curl1: Request -> CurlReply, curl2: Request -> CurlReply, jsonDecode: string -> Value)
    requires forall r :: curl1(r).body == curl2(r).body && curl1(r).error == curl2(r).error
    ensures SendFcm(projectId, oauth, fcmToken, title, body, icon, data, url, curl1, jsonDecode)
         == SendFcm(projectId, oauth, fcmToken, title, body, icon, data, url, curl2, jsonDecode)
  {
  }

  /** The payload for a one-entry associative `data` and no icon. */
  function PlainPayload(fcmToken: string, title: string, body: string, key: string, value: Value): Arr {
    [(K("message"), VArr([
      (K("token"), VStr(fcmToken)),
      (K("notification"), VArr([(K("title"), VStr(title)), (K("body"), VStr(body))])),
      (K("data"), VArr([(StrKey(key), value)]))]))]
  }

  /** With no icon and one string-keyed data entry, the payload is
      `{"message": {"token", "notification", "data"}}` in this order. */
  lemma PlainPayloadBuilt(fcmToken: string, title: string, body: string, key: string, value: Value,
                          url: string -> string)
    requires !IsIntegerKeyString(key)
    ensures PreparePayload(fcmToken, title, body, None, [(StrKey(key), value)], url)
         == Success(PlainPayload(fcmToken, title, body, key, value))
  {
    var data := [(StrKey(key), value)];
    assert data[0].0 != IntKey(0);
    var base := BaseMessage(fcmToken, title, body);
    assert base[0].0 != K("data") && base[1].0 != K("data") by {
      assert "token"[0] != "data"[0] && "notification"[0] != "data"[0];
    }
    assert Assign(base, K("data"), VArr(data)) == [base[0], base[1], (K("data"), VArr(data))] by {
      assert Assign(base[1..], K("data"), VArr(data)) == [base[1], (K("data"), VArr(data))];
    }
  }

  /** An end-to-end call, for any token, title, body and one string-keyed data entry
      (such as "abc", "Hi", "There", {"k": "v"}): with no icon and no curl error the
      call succeeds, having posted that payload. */
  lemma EndToEndExample(projectId: string, accessToken: string, fcmToken: string, title: string,
                        body: string, key: string, value: Value, url: string -> string,
                        curl: Request -> CurlReply, jsonDecode: string -> Value)
    requires !IsIntegerKeyString(key)
    requires curl(BuildRequest(projectId, accessToken, PlainPayload(fcmToken, title, body, key, value))).error == ""
    ensures var run := SendFcm(projectId, OAuthReturned(Some(accessToken)), fcmToken, title, body, None,
                               [(StrKey(key), value)], url, curl, jsonDecode);
      && run.result.Sent?
      && run.posted == Some(BuildRequest(projectId, accessToken, PlainPayload(fcmToken, title, body, key, value)))
  {
    PlainPayloadBuilt(fcmToken, title, body, key, value, url);
  }
}
