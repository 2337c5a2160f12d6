/** FlutterCarrotquestPlugin: the object the host talks to. Its three fields
    change in place, through onMethodCall and the host's lifecycle hooks. */
module Plugin {
  import opened Channel
  import Sdk = CarrotSdk
  import opened Dispatcher
  import opened Session

  /** The list set_user_property builds: a loop over the map's keys that
      adds one property per key, its value looked up in the map. */
  method BuildUserProperties(userProperties: StringMap) returns (list: seq<Sdk.UserProperty>)
    ensures list == PropertyList(userProperties)
    ensures Sdk.ListsExactly(list, AsMap(userProperties))
  {
    var table := AsMap(userProperties);
    list := [];
    var i := 0;
    while i < |userProperties|
      invariant 0 <= i <= |userProperties|
      invariant DistinctKeys(userProperties[..i])
      invariant list == PropertyList(userProperties[..i])
    {
      var key := userProperties[i].0;
      assert table[key] == userProperties[i].1;
      list := list + [Sdk.UserProperty(key, table[key])];
      ghost var done := userProperties[..i + 1];
      assert done[..i] == userProperties[..i] && done[i] == userProperties[i];
      assert DistinctKeys(done);
      assert PropertyList(done) == PropertyList(done[..i]) + [Sdk.UserProperty(done[i].0, done[i].1)];
      i := i + 1;
    }
    assert userProperties[..i] == userProperties;
  }

  class FlutterCarrotquestPlugin {
    /** pluginInitted */
    var initialized: bool
    /** context != null */
    var hasContext: bool
    /** activity != null */
    var hasActivity: bool

    /** The fields as one value. */
    function Snapshot(): (st: State)
      reads this
    {
      State(initialized, hasContext, hasActivity)
    }

    constructor ()
      ensures Snapshot() == Initial
    {
      initialized, hasContext, hasActivity := false, false, false;
    }

    /** onAttachedToEngine, for its effect on the fields: the application
        context is now held. */
    method AttachToEngine()
      modifies this
      ensures hasContext
      ensures initialized == old(initialized) && hasActivity == old(hasActivity)
      ensures Snapshot() == Apply(old(Snapshot()), AttachedToEngine)
    {
      hasContext := true;
    }

    /** onDetachedFromEngine: the flag goes down and the context is dropped. */
    method DetachFromEngine()
      modifies this
      ensures !initialized && !hasContext
      ensures hasActivity == old(hasActivity)
      ensures Snapshot() == Apply(old(Snapshot()), DetachedFromEngine)
    {
      initialized := false;
      hasContext := false;
    }

    /** onAttachedToActivity: a foreground activity is now held. */
    method AttachToActivity()
      modifies this
      ensures hasActivity
      ensures initialized == old(initialized) && hasContext == old(hasContext)
      ensures Snapshot() == Apply(old(Snapshot()), AttachedToActivity)
    {
      hasActivity := true;
    }

    /** onDetachedFromActivity: the flag goes down and the activity is dropped. */
    method DetachFromActivity()
      modifies this
      ensures !initialized && !hasActivity
      ensures hasContext == old(hasContext)
      ensures Snapshot() == Apply(old(Snapshot()), DetachedFromActivity)
    {
      initialized := false;
      hasActivity := false;
    }

    /** onMethodCall: answers one call, reaching at most one SDK operation,
        whose outcome `sdk` is delivered at once. */
    method MethodCall(name: string, args: Args, sdk: Sdk.SdkOutcome) returns (resp: Response, call: Sdk.SdkCall)
      modifies this
      ensures var r := Handle(old(Snapshot()), name, args, sdk);
        resp == r.response && call == r.call && Snapshot() == r.state
      ensures old(Consistent(Snapshot())) ==> Consistent(Snapshot())
    {
      call := Sdk.NoCall;
      if name == "setup" {
        if initialized {
          resp := Error(AlreadyInitialized);
          return;
        }
        var apiKey := StringArg(args, "api_key");
        var appId := StringArg(args, "app_id");
        if apiKey.WrongType? || appId.WrongType? {
          resp := Threw;
          return;
        }
        if apiKey.Absent? || appId.Absent? {
          resp := Error(SetupArgsNull);
          return;
        }
        if hasContext {
          call := Sdk.Setup(apiKey.value, appId.value);
          match sdk {
            case Failed(cause) =>
              initialized := false;
              resp := Error(cause);
            case Completed(_) =>
              initialized := true;
              resp := Success(None);
          }
        } else {
          resp := Error(ActivityNull);
        }
      } else if name == "set_debug" {
        var isDebug := BoolArg(args, "is_debug");
        if isDebug.WrongType? {
          resp := Threw;
          return;
        }
        var flag := if isDebug.Absent? then true else isDebug.value;
        call := Sdk.SetDebug(flag);
        resp := Caught(sdk);
      } else if name == "auth" {
        var rejection := CheckPluginInitiated(Snapshot());
        if rejection.Some? {
          resp := rejection.value;
          return;
        }
        var userId := StringArg(args, "user_id");
        var userAuthKey := StringArg(args, "user_auth_key");
        if userId.WrongType? || userAuthKey.WrongType? {
          resp := Threw;
          return;
        }
        if userId.Absent? || userAuthKey.Absent? {
          resp := Error(AuthArgsNull);
          return;
        }
        call := Sdk.Auth(userId.value, userAuthKey.value);
        match sdk {
          case Completed(value) => resp := Success(value);
          case Failed(cause) => resp := Error(cause);
        }
      } else if name == "de_init" {
        var rejection := CheckPluginInitiated(Snapshot());
        if rejection.Some? {
          resp := rejection.value;
          return;
        }
        call := Sdk.DeInit;
        initialized := false;
        resp := Caught(sdk);
      } else if name == "open_chat" {
        var rejection := CheckPluginInitiated(Snapshot());
        if rejection.Some? {
          resp := rejection.value;
          return;
        }
        if hasActivity {
          call := Sdk.OpenChat;
          resp := Caught(sdk);
        } else {
          resp := Error(ActivityNull);
        }
      } else if name == "send_firebase_notification" {
        var rejection := CheckPluginInitiated(Snapshot());
        if rejection.Some? {
          resp := rejection.value;
          return;
        }
        if "remote_message" !in args {
          resp := Error(RemoteMessageNull);
          return;
        }
        resp := NotImplemented;
      } else if name == "set_token" {
        resp := NotImplemented;
      } else if name == "set_user_property" {
        var rejection := CheckPluginInitiated(Snapshot());
        if rejection.Some? {
          resp := rejection.value;
          return;
        }
        var userProperties := DictArg(args, "user_property");
        if userProperties.WrongType? {
          resp := Threw;
          return;
        }
        if userProperties.Absent? || userProperties.value == [] {
          resp := Error(UserPropertyNullOrEmpty);
          return;
        }
        var list := BuildUserProperties(userProperties.value);
        call := Sdk.SetUserProperty(list);
        resp := Caught(sdk);
      } else if name == "track_event" {
        var rejection := CheckPluginInitiated(Snapshot());
        if rejection.Some? {
          resp := rejection.value;
          return;
        }
        var eventName := StringArg(args, "event_name");
        var eventParams := StringArg(args, "event_params");
        if eventName.WrongType? || eventParams.WrongType? {
          resp := Threw;
          return;
        }
        if eventName.Absent? {
          resp := Error(EventNameNull);
          return;
        }
        if eventParams.Present? {
          call := Sdk.TrackEventWithParams(eventName.value, eventParams.value);
        } else {
          call := Sdk.TrackEvent(eventName.value);
        }
        resp := Caught(sdk);
      } else {
        resp := NotImplemented;
      }
    }
  }
}
