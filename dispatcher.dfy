/** What FlutterCarrotquestPlugin.onMethodCall does with one incoming call,
    as a function of the plugin's state, the call and the SDK's outcome: the
    reply, the SDK operation reached (if any) and the state afterwards. */
module Dispatcher {
  import opened Channel
  import Sdk = CarrotSdk

  /** The plugin's fields: the pluginInitted flag, and whether an
      application context and a foreground activity are held. */
  datatype State = State(initialized: bool, hasContext: bool, hasActivity: bool)

  datatype Reply = Reply(response: Response, call: Sdk.SdkCall, state: State)

  const AlreadyInitialized := "Plugin is already initialized."
  const SetupArgsNull := "An error has occurred, the apiKey or appId is null."
  const ActivityNull := "Activity in null"
  const AuthArgsNull := "An error has occurred, the userId or userAuthKey is null."
  const RemoteMessageNull := "An error has occurred, the remoteMessage is null."
  const UserPropertyNullOrEmpty := "An error has occurred, the userProperty is null or empty."
  const EventNameNull := "An error has occurred, the event_name is null."
  const NotInitialized := "The plugin hasn't been initialized yet. Do Carrot.setup(...) first ."

  /** The commands that answer the "hasn't been initialized" error while the
      flag is down. */
  const GatedCommands: set<string> :=
    {"auth", "de_init", "open_chat", "send_firebase_notification", "set_user_property", "track_event"}

  /** Every name the dispatcher has a branch for. */
  const KnownCommands: set<string> := GatedCommands + {"setup", "set_debug", "set_token"}

  /** A plugin can only have been initialized while it held a context. */
  predicate Consistent(st: State)
  {
    st.initialized ==> st.hasContext
  }

  /** An answer given without reaching the SDK and without touching the state. */
  function Answer(st: State, response: Response): (r: Reply)
  {
    Reply(response, Sdk.NoCall, st)
  }

  /** checkPluginInitiated: the error to answer when the flag is down. */
  function CheckPluginInitiated(st: State): (rejection: Option<Response>)
    ensures rejection.Some? <==> !st.initialized
    ensures rejection.Some? ==> rejection.value == Error(NotInitialized)
  {
    if !st.initialized then Some(Error(NotInitialized)) else None
  }

  /** The answer of a synchronous SDK call inside try/catch: success(null)
      when it returns, the exception's message when it throws. */
  function Caught(sdk: Sdk.SdkOutcome): (resp: Response)
    ensures resp.Success? <==> sdk.Completed?
    ensures sdk.Completed? ==> resp.value == None
    ensures sdk.Failed? ==> resp == Error(sdk.message)
  {
    match sdk
    case Completed(_) => Success(None)
    case Failed(message) => Error(message)
  }

  /** The properties handed to Carrot.setUserProperty, one per map entry in
      the map's iteration order. */
  function PropertyList(entries: seq<(string, string)>): (list: seq<Sdk.UserProperty>)
    requires DistinctKeys(entries)
    ensures Sdk.ListsExactly(list, AsMap(entries))
  {
    if entries == [] then []
    else
      var init, last := entries[..|entries| - 1], entries[|entries| - 1];
      LastKeyIsNew(entries);
      AsMapSize(entries);
      AsMapSize(init);
      var rest := PropertyList(init);
      assert forall p :: p in rest ==> p.key in KeysOf(init);
      rest + [Sdk.UserProperty(last.0, last.1)]
  }

  /** "setup": one-shot; needs both keys and a context; the flag goes up
      exactly when the SDK's callback reports success. */
  function Setup(st: State, args: Args, sdk: Sdk.SdkOutcome): (r: Reply)
    ensures r.state.hasContext == st.hasContext && r.state.hasActivity == st.hasActivity
    ensures st.initialized ==> r == Answer(st, Error(AlreadyInitialized))
    ensures var apiKey, appId := StringArg(args, "api_key"), StringArg(args, "app_id");
      && (r.response == Threw <==> !st.initialized && (apiKey.WrongType? || appId.WrongType?))
      && (!st.initialized && !apiKey.WrongType? && !appId.WrongType? && (apiKey.Absent? || appId.Absent?)
          ==> r == Answer(st, Error(SetupArgsNull)))
      && (!st.initialized && apiKey.Present? && appId.Present? && !st.hasContext
          ==> r == Answer(st, Error(ActivityNull)))
      && (r.call != Sdk.NoCall <==> !st.initialized && apiKey.Present? && appId.Present? && st.hasContext)
      && (r.call != Sdk.NoCall ==> r.call == Sdk.Setup(apiKey.value, appId.value))
    ensures r.call == Sdk.NoCall ==> r.state == st
    ensures r.state.initialized <==> st.initialized || (r.call != Sdk.NoCall && sdk.Completed?)
    ensures r.call != Sdk.NoCall && sdk.Completed? ==> r.response == Success(None)
    ensures r.call != Sdk.NoCall && sdk.Failed? ==> r.response == Error(sdk.message)
  {
    if st.initialized then Answer(st, Error(AlreadyInitialized))
    else
      var apiKey, appId := StringArg(args, "api_key"), StringArg(args, "app_id");
      if apiKey.WrongType? || appId.WrongType? then Answer(st, Threw)
      else if apiKey.Absent? || appId.Absent? then Answer(st, Error(SetupArgsNull))
      else if !st.hasContext then Answer(st, Error(ActivityNull))
      else
        var call := Sdk.Setup(apiKey.value, appId.value);
        match sdk
        case Completed(_) => Reply(Success(None), call, st.(initialized := true))
        case Failed(cause) => Reply(Error(cause), call, st.(initialized := false))
  }

  /** "set_debug": not gated; a missing is_debug means true. */
  function SetDebug(st: State, args: Args, sdk: Sdk.SdkOutcome): (r: Reply)
    ensures r.state == st
    ensures var isDebug := BoolArg(args, "is_debug");
      && (r.response == Threw <==> isDebug.WrongType?)
      && (isDebug.Absent? ==> r.call == Sdk.SetDebug(true))
      && (isDebug.Present? ==> r.call == Sdk.SetDebug(isDebug.value))
    ensures r.call != Sdk.NoCall ==> r.response == Caught(sdk)
  {
    var isDebug := BoolArg(args, "is_debug");
    if isDebug.WrongType? then Answer(st, Threw)
    else
      var flag := if isDebug.Absent? then true else isDebug.value;
      Reply(Caught(sdk), Sdk.SetDebug(flag), st)
  }

  /** "auth": gated; needs both ids; answers the callback's value or cause;
      never touches the flag. */
  function Auth(st: State, args: Args, sdk: Sdk.SdkOutcome): (r: Reply)
    ensures r.state == st
    ensures !st.initialized ==> r == Answer(st, Error(NotInitialized))
    ensures var userId, userAuthKey := StringArg(args, "user_id"), StringArg(args, "user_auth_key");
      && (r.response == Threw <==> st.initialized && (userId.WrongType? || userAuthKey.WrongType?))
      && (st.initialized && !userId.WrongType? && !userAuthKey.WrongType? && (userId.Absent? || userAuthKey.Absent?)
          ==> r == Answer(st, Error(AuthArgsNull)))
      && (r.call != Sdk.NoCall <==> st.initialized && userId.Present? && userAuthKey.Present?)
      && (r.call != Sdk.NoCall ==> r.call == Sdk.Auth(userId.value, userAuthKey.value))
    ensures r.call != Sdk.NoCall && sdk.Completed? ==> r.response == Success(sdk.value)
    ensures r.call != Sdk.NoCall && sdk.Failed? ==> r.response == Error(sdk.message)
  {
    match CheckPluginInitiated(st)
    case Some(rejection) => Answer(st, rejection)
    case None =>
      var userId, userAuthKey := StringArg(args, "user_id"), StringArg(args, "user_auth_key");
      if userId.WrongType? || userAuthKey.WrongType? then Answer(st, Threw)
      else if userId.Absent? || userAuthKey.Absent? then Answer(st, Error(AuthArgsNull))
      else
        var call := Sdk.Auth(userId.value, userAuthKey.value);
        match sdk
        case Completed(value) => Reply(Success(value), call, st)
        case Failed(cause) => Reply(Error(cause), call, st)
  }

  /** "de_init": gated; the flag is down afterwards whether Carrot.deInit
      returns or throws. */
  function DeInit(st: State, sdk: Sdk.SdkOutcome): (r: Reply)
    ensures !r.state.initialized
    ensures r.state.hasContext == st.hasContext && r.state.hasActivity == st.hasActivity
    ensures !st.initialized ==> r == Answer(st, Error(NotInitialized))
    ensures st.initialized ==> r.call == Sdk.DeInit && r.response == Caught(sdk)
  {
    match CheckPluginInitiated(st)
    case Some(rejection) => Answer(st, rejection)
    case None => Reply(Caught(sdk), Sdk.DeInit, st.(initialized := false))
  }

  /** "open_chat": gated; needs a foreground activity. */
  function OpenChat(st: State, sdk: Sdk.SdkOutcome): (r: Reply)
    ensures r.state == st
    ensures !st.initialized ==> r == Answer(st, Error(NotInitialized))
    ensures st.initialized && !st.hasActivity ==> r == Answer(st, Error(ActivityNull))
    ensures r.call != Sdk.NoCall <==> st.initialized && st.hasActivity
    ensures r.call != Sdk.NoCall ==> r.call == Sdk.OpenChat && r.response == Caught(sdk)
  {
    match CheckPluginInitiated(st)
    case Some(rejection) => Answer(st, rejection)
    case None =>
      if st.hasActivity then Reply(Caught(sdk), Sdk.OpenChat, st)
      else Answer(st, Error(ActivityNull))
  }

  /** "send_firebase_notification": gated; rejects a null remote_message and
      otherwise is not implemented. It never reaches the SDK. */
  function SendFirebaseNotification(st: State, args: Args): (r: Reply)
    ensures r.state == st && r.call == Sdk.NoCall
    ensures r.response == NotImplemented <==> st.initialized && "remote_message" in args
    ensures !st.initialized ==> r.response == Error(NotInitialized)
    ensures st.initialized && "remote_message" !in args ==> r.response == Error(RemoteMessageNull)
  {
    match CheckPluginInitiated(st)
    case Some(rejection) => Answer(st, rejection)
    case None =>
      if "remote_message" !in args then Answer(st, Error(RemoteMessageNull))
      else Answer(st, NotImplemented)
  }

  /** "set_user_property": gated; rejects a null or empty map; otherwise hands
      the SDK one property per map entry. */
  function SetUserProperty(st: State, args: Args, sdk: Sdk.SdkOutcome): (r: Reply)
    ensures r.state == st
    ensures !st.initialized ==> r == Answer(st, Error(NotInitialized))
    ensures var props := DictArg(args, "user_property");
      && (r.response == Threw <==> st.initialized && props.WrongType?)
      && (st.initialized && (props.Absent? || (props.Present? && props.value == []))
          ==> r == Answer(st, Error(UserPropertyNullOrEmpty)))
      && (r.call != Sdk.NoCall <==> st.initialized && props.Present? && props.value != [])
      && (r.call != Sdk.NoCall ==>
            r.call.SetUserProperty? && Sdk.ListsExactly(r.call.properties, AsMap(props.value)))
    ensures r.call != Sdk.NoCall ==> r.response == Caught(sdk)
  {
    match CheckPluginInitiated(st)
    case Some(rejection) => Answer(st, rejection)
    case None =>
      var props := DictArg(args, "user_property");
      if props.WrongType? then Answer(st, Threw)
      else if props.Absent? || props.value == [] then Answer(st, Error(UserPropertyNullOrEmpty))
      else Reply(Caught(sdk), Sdk.SetUserProperty(PropertyList(props.value)), st)
  }

  /** "track_event": gated; needs event_name; event_params picks the
      two-argument trackEvent, its absence the one-argument one. */
  function TrackEvent(st: State, args: Args, sdk: Sdk.SdkOutcome): (r: Reply)
    ensures r.state == st
    ensures !st.initialized ==> r == Answer(st, Error(NotInitialized))
    ensures var eventName, eventParams := StringArg(args, "event_name"), StringArg(args, "event_params");
      && (r.response == Threw <==> st.initialized && (eventName.WrongType? || eventParams.WrongType?))
      && (st.initialized && eventName.Absent? && !eventParams.WrongType?
          ==> r == Answer(st, Error(EventNameNull)))
      && (r.call.TrackEventWithParams? <==> st.initialized && eventName.Present? && eventParams.Present?)
      && (r.call.TrackEvent? <==> st.initialized && eventName.Present? && eventParams.Absent?)
      && (r.call.TrackEventWithParams? ==> r.call == Sdk.TrackEventWithParams(eventName.value, eventParams.value))
      && (r.call.TrackEvent? ==> r.call == Sdk.TrackEvent(eventName.value))
    ensures r.call.TrackEvent? || r.call.TrackEventWithParams? || r.call == Sdk.NoCall
    ensures r.call != Sdk.NoCall ==> r.response == Caught(sdk)
  {
    match CheckPluginInitiated(st)
    case Some(rejection) => Answer(st, rejection)
    case None =>
      var eventName, eventParams := StringArg(args, "event_name"), StringArg(args, "event_params");
      if eventName.WrongType? || eventParams.WrongType? then Answer(st, Threw)
      else if eventName.Absent? then Answer(st, Error(EventNameNull))
      else if eventParams.Present? then
        Reply(Caught(sdk), Sdk.TrackEventWithParams(eventName.value, eventParams.value), st)
      else
        Reply(Caught(sdk), Sdk.TrackEvent(eventName.value), st)
  }

  /** onMethodCall: one reply per call, chosen by the call's name. */
  function Handle(st: State, name: string, args: Args, sdk: Sdk.SdkOutcome): (r: Reply)
    ensures !st.initialized ==> (r == Answer(st, Error(NotInitialized)) <==> name in GatedCommands)
    ensures name == "set_token" || name !in KnownCommands ==> r == Answer(st, NotImplemented)
    ensures r.state.hasContext == st.hasContext && r.state.hasActivity == st.hasActivity
    ensures Consistent(st) ==> Consistent(r.state)
    ensures r.state.initialized && !st.initialized ==> name == "setup" && r.call.Setup? && sdk.Completed?
    ensures !r.state.initialized && st.initialized ==> name == "de_init" && r.call == Sdk.DeInit
  {
    if name == "setup" then Setup(st, args, sdk)
    else if name == "set_debug" then SetDebug(st, args, sdk)
    else if name == "auth" then Auth(st, args, sdk)
    else if name == "de_init" then DeInit(st, sdk)
    else if name == "open_chat" then OpenChat(st, sdk)
    else if name == "send_firebase_notification" then SendFirebaseNotification(st, args)
    else if name == "set_token" then Answer(st, NotImplemented)
    else if name == "set_user_property" then SetUserProperty(st, args, sdk)
    else if name == "track_event" then TrackEvent(st, args, sdk)
    else Answer(st, NotImplemented)
  }
}
