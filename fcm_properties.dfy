/**
 * What FCMService promises its callers, stated over the model: the shape of the
 * FCM message `preparePayload` builds, and the order, short-circuiting and error
 * messages of `sendFCM`.
 */
module FcmProperties {
  import opened Wrappers
  import opened PhpArray
  import opened FcmService

  /** The inner `message` array of a built payload. */
  function MessageOf(payload: Arr): Option<Arr> {
    match Lookup(payload, K("message"))
    case Some(VArr(m)) => Some(m)
    case _ => None
  }

  /** The keys the message carries, in the order `preparePayload` writes them. */
  function ExpectedKeys(icon: Option<string>, data: Arr): seq<Key> {
    [K("token"), K("notification")]
    + (if NullableStringIsEmpty(icon) then [] else [K("webpush"), K("android"), K("apns")])
    + (if |data| > 0 then [K("data")] else [])
  }

  /** Appending three elements one by one is appending the three together. */
  lemma AppendThree<X>(s: seq<X>, x: X, y: X, z: X)
    ensures s + [x] + [y] + [z] == s + [x, y, z]
  {
  }

  /** Three writes of new, pairwise different keys append them in order. */
  lemma AssignThreeNewKeys(a: Arr, k1: Key, v1: Value, k2: Key, v2: Value, k3: Key, v3: Value)
    requires DistinctKeys(a) && k1 !in Keys(a) && k2 !in Keys(a) && k3 !in Keys(a)
    requires k1 != k2 && k1 != k3 && k2 != k3
    ensures Keys(Assign(Assign(Assign(a, k1, v1), k2, v2), k3, v3)) == Keys(a) + [k1, k2, k3]
    ensures DistinctKeys(Assign(Assign(Assign(a, k1, v1), k2, v2), k3, v3))
  {
    var a1 := Assign(a, k1, v1);
    AssignNewKey(a, k1, v1);
    assert k2 !in Keys(a1);
    var a2 := Assign(a1, k2, v2);
    AssignNewKey(a1, k2, v2);
    assert k3 !in Keys(a2);
    AssignNewKey(a2, k3, v3);
    AppendThree(Keys(a), k1, k2, k3);
  }

  /** Adding the icon blocks to a message that has none appends exactly those three
      keys, in this order, and keeps the keys distinct. */
  lemma AttachIconKeys(message: Arr, iconUrl: string)
    requires K("webpush") !in Keys(message) && K("android") !in Keys(message) && K("apns") !in Keys(message)
    requires DistinctKeys(message)
    ensures Keys(AttachIcon(message, iconUrl)) == Keys(message) + [K("webpush"), K("android"), K("apns")]
    ensures DistinctKeys(AttachIcon(message, iconUrl))
  {
    assert K("webpush") != K("android") && K("apns") != K("android") && K("apns") != K("webpush") by {
      assert "webpush"[0] != "android"[0];
    }
    AssignThreeNewKeys(message, K("webpush"), WebpushBlock(iconUrl), K("android"), AndroidBlock(iconUrl),
                       K("apns"), ApnsBlock(iconUrl));
  }

  /** Each platform block holds the icon URL; every other entry is left as it was. */
  lemma AttachIconLookups(message: Arr, iconUrl: string, k: Key)
    ensures var m := AttachIcon(message, iconUrl);
      && Lookup(m, K("webpush")) == Some(WebpushBlock(iconUrl))
      && Lookup(m, K("android")) == Some(AndroidBlock(iconUrl))
      && Lookup(m, K("apns")) == Some(ApnsBlock(iconUrl))
      && (k != K("webpush") && k != K("android") && k != K("apns") ==> Lookup(m, k) == Lookup(message, k))
  {
  }

  /** The message keys `preparePayload` writes are pairwise different. */
  lemma MessageKeyNamesDistinct()
    ensures K("data") !in [K("token"), K("notification")]
    ensures K("data") !in [K("webpush"), K("android"), K("apns")]
  {
  }

  /** Before `data`, the message holds the base keys and, with an icon, the three blocks after them. */
  lemma MessageBeforeDataKeys(fcmToken: string, title: string, body: string,
                              icon: Option<string>, url: string -> string)
    ensures var m := MessageBeforeData(fcmToken, title, body, icon, url);
      Keys(m) == ExpectedKeys(icon, []) && K("data") !in Keys(m) && DistinctKeys(m)
  {
    MessageKeyNamesDistinct();
    BaseDistinctKeys(fcmToken, title, body);
    if !NullableStringIsEmpty(icon) {
      KeysWithIcon(fcmToken, title, body, icon, url);
      assert ExpectedKeys(icon, []) == [K("token"), K("notification")] + [K("webpush"), K("android"), K("apns")] + [];
    } else {
      KeysWithoutIcon(fcmToken, title, body, icon, url);
      assert ExpectedKeys(icon, []) == [K("token"), K("notification")] + [] + [];
    }
  }

  /** With an icon: the two base keys, then the three platform blocks. */
  lemma KeysWithIcon(fcmToken: string, title: string, body: string,
                     icon: Option<string>, url: string -> string)
    requires !NullableStringIsEmpty(icon)
    ensures var m := MessageBeforeData(fcmToken, title, body, icon, url);
      Keys(m) == [K("token"), K("notification")] + [K("webpush"), K("android"), K("apns")] && DistinctKeys(m)
  {
    var base := BaseMessage(fcmToken, title, body);
    assert Keys(base) == [K("token"), K("notification")];
    BaseDistinctKeys(fcmToken, title, body);
    AttachIconKeys(base, url(icon.value));
  }

  /** Without an icon: only the two base keys. */
  lemma KeysWithoutIcon(fcmToken: string, title: string, body: string,
                        icon: Option<string>, url: string -> string)
    requires NullableStringIsEmpty(icon)
    ensures Keys(MessageBeforeData(fcmToken, title, body, icon, url)) == [K("token"), K("notification")]
  {
  }

  /** `token` and `notification` are different keys. */
  lemma BaseDistinctKeys(fcmToken: string, title: string, body: string)
    ensures DistinctKeys(BaseMessage(fcmToken, title, body))
  {
  }

  /** Before `data`, the token and notification entries are the base ones. */
  lemma MessageBeforeDataText(fcmToken: string, title: string, body: string,
                              icon: Option<string>, url: string -> string)
    ensures var m := MessageBeforeData(fcmToken, title, body, icon, url);
      && Lookup(m, K("token")) == Some(VStr(fcmToken))
      && Lookup(m, K("notification")) == Some(NotificationBlock(title, body))
  {
    var base := BaseMessage(fcmToken, title, body);
    assert Lookup(base, K("token")) == Some(VStr(fcmToken));
    assert Lookup(base, K("notification")) == Some(NotificationBlock(title, body));
    if !NullableStringIsEmpty(icon) {
      AttachIconLookups(base, url(icon.value), K("token"));
      AttachIconLookups(base, url(icon.value), K("notification"));
    }
  }

  /** Before `data`, the platform blocks are there exactly when there is an icon. */
  lemma MessageBeforeDataBlocks(fcmToken: string, title: string, body: string,
                                icon: Option<string>, url: string -> string)
    ensures var m := MessageBeforeData(fcmToken, title, body, icon, url);
      && Lookup(m, K("webpush")) == (if NullableStringIsEmpty(icon) then None else Some(WebpushBlock(url(icon.value))))
      && Lookup(m, K("android")) == (if NullableStringIsEmpty(icon) then None else Some(AndroidBlock(url(icon.value))))
      && Lookup(m, K("apns")) == (if NullableStringIsEmpty(icon) then None else Some(ApnsBlock(url(icon.value))))
  {
  }

  /** A successful payload is the one-entry envelope `{"message": m}`. */
  lemma PayloadEnvelope(fcmToken: string, title: string, body: string,
                        icon: Option<string>, data: Arr, url: string -> string)
    requires !(|data| > 0 && IsList(data))
    ensures PreparePayload(fcmToken, title, body, icon, data, url)
         == Success([(K("message"), VArr(FinalMessage(fcmToken, title, body, icon, data, url)))])
    ensures MessageOf(PreparePayload(fcmToken, title, body, icon, data, url).value)
         == Some(FinalMessage(fcmToken, title, body, icon, data, url))
  {
  }

  /** The final message holds the expected keys, in the order they are written, none twice. */
  lemma FinalMessageKeys(fcmToken: string, title: string, body: string,
                         icon: Option<string>, data: Arr, url: string -> string)
    ensures Keys(FinalMessage(fcmToken, title, body, icon, data, url)) == ExpectedKeys(icon, data)
    ensures DistinctKeys(FinalMessage(fcmToken, title, body, icon, data, url))
  {
    var before := MessageBeforeData(fcmToken, title, body, icon, url);
    MessageBeforeDataKeys(fcmToken, title, body, icon, url);
    if |data| > 0 {
      AssignNewKey(before, K("data"), VArr(data));
      ExpectedKeysWithData(icon, data);
    } else {
      assert ExpectedKeys(icon, data) == ExpectedKeys(icon, []);
    }
  }

  /** Non-empty `data` adds its key last. */
  lemma ExpectedKeysWithData(icon: Option<string>, data: Arr)
    requires |data| > 0
    ensures ExpectedKeys(icon, data) == ExpectedKeys(icon, []) + [K("data")]
  {
  }

  /** The message holds exactly the expected keys, in the order they are written, none twice. */
  lemma PayloadMessageKeys(fcmToken: string, title: string, body: string,
                           icon: Option<string>, data: Arr, url: string -> string)
    requires !(|data| > 0 && IsList(data))
    ensures var p := PreparePayload(fcmToken, title, body, icon, data, url).value;
      && |p| == 1 && p[0].0 == K("message") && MessageOf(p).Some?
      && Keys(MessageOf(p).value) == ExpectedKeys(icon, data)
      && DistinctKeys(MessageOf(p).value)
  {
    PayloadEnvelope(fcmToken, title, body, icon, data, url);
    FinalMessageKeys(fcmToken, title, body, icon, data, url);
  }

  /** Every entry of the message, key by key. */
  lemma FinalMessageEntries(fcmToken: string, title: string, body: string,
                            icon: Option<string>, data: Arr, url: string -> string)
    ensures var m := FinalMessage(fcmToken, title, body, icon, data, url);
      && Lookup(m, K("token")) == Some(VStr(fcmToken))
      && Lookup(m, K("notification")) == Some(NotificationBlock(title, body))
      && Lookup(m, K("webpush")) == (if NullableStringIsEmpty(icon) then None else Some(WebpushBlock(url(icon.value))))
      && Lookup(m, K("android")) == (if NullableStringIsEmpty(icon) then None else Some(AndroidBlock(url(icon.value))))
      && Lookup(m, K("apns")) == (if NullableStringIsEmpty(icon) then None else Some(ApnsBlock(url(icon.value))))
      && Lookup(m, K("data")) == (if |data| > 0 then Some(VArr(data)) else None)
  {
    MessageBeforeDataKeys(fcmToken, title, body, icon, url);
    MessageBeforeDataText(fcmToken, title, body, icon, url);
    MessageBeforeDataBlocks(fcmToken, title, body, icon, url);
    assert "data"[0] != "token"[0] && "data"[0] != "notification"[0] && "data"[0] != "webpush"[0];
    assert "data"[0] != "android"[0] && "data"[0] != "apns"[0];
  }

  /** Reading a nested entry one key at a time. */
  lemma PathStep(entries: Arr, k: Key, rest: seq<Key>)
    ensures Path(VArr(entries), [k] + rest)
         == match Lookup(entries, k) case Some(w) => Path(w, rest) case None => None
  {
  }

  /** `$payload["message"][$k]` is the message entry for `k`. */
  lemma PathIntoMessage(p: Arr, k: Key, rest: seq<Key>)
    requires MessageOf(p).Some?
    ensures Path(VArr(p), [K("message"), k] + rest)
         == match Lookup(MessageOf(p).value, k) case Some(w) => Path(w, rest) case None => None
  {
  }

  /** The device token, title and body reach the message unchanged. */
  lemma PayloadCarriesTokenAndNotification(fcmToken: string, title: string, body: string,
                                           icon: Option<string>, data: Arr, url: string -> string)
    requires !(|data| > 0 && IsList(data))
    ensures var v := VArr(PreparePayload(fcmToken, title, body, icon, data, url).value);
      && Path(v, [K("message"), K("token")]) == Some(VStr(fcmToken))
      && Path(v, [K("message"), K("notification"), K("title")]) == Some(VStr(title))
      && Path(v, [K("message"), K("notification"), K("body")]) == Some(VStr(body))
  {
    var p := PreparePayload(fcmToken, title, body, icon, data, url).value;
    PayloadEnvelope(fcmToken, title, body, icon, data, url);
    FinalMessageEntries(fcmToken, title, body, icon, data, url);
    PathIntoMessage(p, K("token"), []);
    assert [K("message"), K("token")] + [] == [K("message"), K("token")];
    NotificationPaths(p, title, body);
  }

  /** The notification block read back field by field. */
  lemma NotificationPaths(p: Arr, title: string, body: string)
    requires MessageOf(p).Some?
    requires Lookup(MessageOf(p).value, K("notification")) == Some(NotificationBlock(title, body))
    ensures Path(VArr(p), [K("message"), K("notification"), K("title")]) == Some(VStr(title))
    ensures Path(VArr(p), [K("message"), K("notification"), K("body")]) == Some(VStr(body))
  {
    var n := [(K("title"), VStr(title)), (K("body"), VStr(body))];
    PathIntoMessage(p, K("notification"), [K("title")]);
    PathStep(n, K("title"), []);
    assert [K("title")] + [] == [K("title")];
    PathIntoMessage(p, K("notification"), [K("body")]);
    PathStep(n, K("body"), []);
    assert [K("body")] + [] == [K("body")];
  }

  /** Without an icon (null, "" or "0") no platform block is added. */
  lemma NoIconNoPlatformBlocks(fcmToken: string, title: string, body: string,
                               icon: Option<string>, data: Arr, url: string -> string)
    requires NullableStringIsEmpty(icon)
    requires !(|data| > 0 && IsList(data))
    ensures var v := VArr(PreparePayload(fcmToken, title, body, icon, data, url).value);
      && Path(v, [K("message"), K("webpush")]) == None
      && Path(v, [K("message"), K("android")]) == None
      && Path(v, [K("message"), K("apns")]) == None
  {
    var p := PreparePayload(fcmToken, title, body, icon, data, url).value;
    PayloadEnvelope(fcmToken, title, body, icon, data, url);
    FinalMessageEntries(fcmToken, title, body, icon, data, url);
    PathIntoMessage(p, K("webpush"), []);
    PathIntoMessage(p, K("android"), []);
    PathIntoMessage(p, K("apns"), []);
    assert [K("message"), K("webpush")] + [] == [K("message"), K("webpush")];
    assert [K("message"), K("android")] + [] == [K("message"), K("android")];
    assert [K("message"), K("apns")] + [] == [K("message"), K("apns")];
  }

  /** With an icon, the web, Android and APNs blocks all point at the one resolved `url(icon)`. */
  lemma IconSharedByPlatformBlocks(fcmToken: string, title: string, body: string,
                                   icon: Option<string>, data: Arr, url: string -> string)
    requires !NullableStringIsEmpty(icon)
    requires !(|data| > 0 && IsList(data))
    ensures var v := VArr(PreparePayload(fcmToken, title, body, icon, data, url).value);
      && Path(v, [K("message"), K("webpush"), K("notification"), K("icon")]) == Some(VStr(url(icon.value)))
      && Path(v, [K("message"), K("android"), K("notification"), K("image")]) == Some(VStr(url(icon.value)))
      && Path(v, [K("message"), K("apns"), K("fcm_options"), K("image")]) == Some(VStr(url(icon.value)))
  {
    var p := PreparePayload(fcmToken, title, body, icon, data, url).value;
    var u := url(icon.value);
    PayloadEnvelope(fcmToken, title, body, icon, data, url);
    FinalMessageEntries(fcmToken, title, body, icon, data, url);
    BlockPath(p, K("webpush"), K("notification"), K("icon"), u);
    BlockPath(p, K("android"), K("notification"), K("image"), u);
    BlockPath(p, K("apns"), K("fcm_options"), K("image"), u);
  }

  /** A platform block `{k1: {k2: u}}` read back along its path. */
  lemma BlockPath(p: Arr, platform: Key, k1: Key, k2: Key, u: string)
    requires MessageOf(p).Some?
    requires Lookup(MessageOf(p).value, platform) == Some(VArr([(k1, VArr([(k2, VStr(u))]))]))
    ensures Path(VArr(p), [K("message"), platform, k1, k2]) == Some(VStr(u))
  {
    PathIntoMessage(p, platform, [k1, k2]);
    assert [K("message"), platform] + [k1, k2] == [K("message"), platform, k1, k2];
    PathStep([(k1, VArr([(k2, VStr(u))]))], k1, [k2]);
    assert [k1] + [k2] == [k1, k2];
    PathStep([(k2, VStr(u))], k2, []);
    assert [k2] + [] == [k2];
  }

  /** Empty `data` never fails and never adds a `data` key, whatever the icon. */
  lemma EmptyDataNoDataKey(fcmToken: string, title: string, body: string,
                           icon: Option<string>, url: string -> string)
    ensures PreparePayload(fcmToken, title, body, icon, [], url).Success?
    ensures Path(VArr(PreparePayload(fcmToken, title, body, icon, [], url).value),
                 [K("message"), K("data")]) == None
  {
    var p := PreparePayload(fcmToken, title, body, icon, [], url).value;
    PayloadEnvelope(fcmToken, title, body, icon, [], url);
    FinalMessageEntries(fcmToken, title, body, icon, [], url);
    PathIntoMessage(p, K("data"), []);
    assert [K("message"), K("data")] + [] == [K("message"), K("data")];
  }

  /** Non-empty list `data` (keys 0..n-1 in order) is refused with the associative-array error. */
  lemma ListDataRejected(fcmToken: string, title: string, body: string,
                         icon: Option<string>, data: Arr, url: string -> string)
    requires |data| > 0 && IsList(data)
    ensures PreparePayload(fcmToken, title, body, icon, data, url)
         == Failure(Exception(InvalidArgumentException, DATA_NOT_ASSOCIATIVE))
  {
  }

  /** Non-empty `data` that is not a list is attached verbatim: same pairs, same order, same values. */
  lemma AssociativeDataAttachedVerbatim(fcmToken: string, title: string, body: string,
                                        icon: Option<string>, data: Arr, url: string -> string)
    requires |data| > 0 && !IsList(data)
    ensures PreparePayload(fcmToken, title, body, icon, data, url).Success?
    ensures Path(VArr(PreparePayload(fcmToken, title, body, icon, data, url).value),
                 [K("message"), K("data")]) == Some(VArr(data))
  {
    var p := PreparePayload(fcmToken, title, body, icon, data, url).value;
    PayloadEnvelope(fcmToken, title, body, icon, data, url);
    FinalMessageEntries(fcmToken, title, body, icon, data, url);
    PathIntoMessage(p, K("data"), []);
    assert [K("message"), K("data")] + [] == [K("message"), K("data")];
  }
}
