/** The face of the Carrot quest SDK that the plugin calls. The SDK itself is
    opaque: a call is recorded by name and arguments, and what it did is an
    outcome the caller of the model supplies. */
module CarrotSdk {
  import opened Channel

  /** One user property handed to Carrot.setUserProperty. */
  datatype UserProperty = UserProperty(key: string, value: string)

  /** Which SDK operation one incoming call reached, with its arguments. */
  datatype SdkCall =
    | NoCall
    | Setup(apiKey: string, appId: string)
    | SetDebug(isDebug: bool)
    | Auth(userId: string, userAuthKey: string)
    | DeInit
    | OpenChat
    | SetUserProperty(properties: seq<UserProperty>)
    | TrackEvent(eventName: string)
    | TrackEventWithParams(eventName: string, eventParams: string)

  /** How the reached SDK operation ended. For setup and auth this is the
      callback that fires (onResponse with its Boolean? value, or onFailure
      with the cause's text); for the synchronous operations `Completed`
      means the call returned and `Failed` that it threw. */
  datatype SdkOutcome = Completed(value: Option<bool>) | Failed(message: string)

  /** `list` holds exactly one property per key of `m`, carrying that key's
      value: no key twice, no key missing, nothing else. */
  ghost predicate ListsExactly(list: seq<UserProperty>, m: map<string, string>)
  {
    && |list| == |m|
    && (forall i, j :: 0 <= i < j < |list| ==> list[i].key != list[j].key)
    && (forall p :: p in list <==> p.key in m && m[p.key] == p.value)
  }
}
