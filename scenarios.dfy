/** Concrete calls and what the dispatcher answers to them. */
module Scenarios {
  import opened Channel
  import Sdk = CarrotSdk
  import opened Dispatcher
  import opened Session

  /** setup with an api_key and no app_id is rejected before the SDK. */
  lemma SetupWithoutAppId(st: State, sdk: Sdk.SdkOutcome)
    requires !st.initialized
    ensures Handle(st, "setup", map["api_key" := Str("K")], sdk) == Reply(Error(SetupArgsNull), Sdk.NoCall, st)
  {
  }

  /** A one-entry map becomes a one-property list. */
  lemma OneUserProperty(st: State, sdk: Sdk.SdkOutcome)
    requires st.initialized
    ensures Handle(st, "set_user_property", map["user_property" := Dict([("age", "30")])], sdk).call
      == Sdk.SetUserProperty([Sdk.UserProperty("age", "30")])
  {
  }

  /** An empty map is rejected before the SDK. */
  lemma EmptyUserProperty(st: State, sdk: Sdk.SdkOutcome)
    requires st.initialized
    ensures Handle(st, "set_user_property", map["user_property" := Dict([])], sdk)
      == Reply(Error(UserPropertyNullOrEmpty), Sdk.NoCall, st)
  {
  }

  /** An event without params reaches the one-argument trackEvent. */
  lemma EventWithoutParams(st: State, sdk: Sdk.SdkOutcome)
    requires st.initialized
    ensures Handle(st, "track_event", map["event_name" := Str("purchase")], sdk).call == Sdk.TrackEvent("purchase")
  {
  }

  /** de_init clears the flag even when Carrot.deInit throws. */
  lemma DeInitThatThrows(st: State, message: string)
    requires st.initialized
    ensures Handle(st, "de_init", map[], Sdk.Failed(message)) == Reply(Error(message), Sdk.DeInit, st.(initialized := false))
  {
  }

  /** An unknown name is not implemented, whatever the state. */
  lemma UnknownCommand(st: State, args: Args, sdk: Sdk.SdkOutcome)
    ensures Handle(st, "foo", args, sdk) == Reply(NotImplemented, Sdk.NoCall, st)
  {
  }

  /** A full session: attach, setup, open a chat, detach the activity; the
      chat then fails for want of an initialized plugin. */
  lemma ChatAfterActivityDetach(args: Args, sdk: Sdk.SdkOutcome)
    requires StringArg(args, "api_key").Present? && StringArg(args, "app_id").Present?
    ensures var st := Run(Initial, [AttachedToEngine, AttachedToActivity,
                                    Call("setup", args, Sdk.Completed(None)), DetachedFromActivity]);
      Handle(st, "open_chat", map[], sdk) == Reply(Error(NotInitialized), Sdk.NoCall, st)
  {
    var s1 := Apply(Initial, AttachedToEngine);
    var s2 := Apply(s1, AttachedToActivity);
    var s3 := Apply(s2, Call("setup", args, Sdk.Completed(None)));
    assert s3.initialized;
    var events := [AttachedToEngine, AttachedToActivity, Call("setup", args, Sdk.Completed(None)), DetachedFromActivity];
    assert Run(Initial, events) == Run(s1, events[1..]);
    assert Run(s1, events[1..]) == Run(s2, events[2..]);
    assert Run(s2, events[2..]) == Run(s3, events[3..]);
    assert Run(s3, events[3..]) == Run(Apply(s3, DetachedFromActivity), []);
  }
}
