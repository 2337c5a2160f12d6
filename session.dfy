/** The plugin's life as a sequence of events: incoming calls and the host's
    attach and detach hooks, and what holds along any such sequence. */
module Session {
  import opened Channel
  import Sdk = CarrotSdk
  import opened Dispatcher

  datatype Event =
    | Call(name: string, args: Args, sdk: Sdk.SdkOutcome)
    | AttachedToEngine
    | DetachedFromEngine
    | AttachedToActivity
    | DetachedFromActivity

  /** A freshly constructed plugin: no flag, no context, no activity. */
  const Initial := State(false, false, false)

  /** The state after one event. */
  function Apply(st: State, e: Event): (next: State)
    ensures Consistent(st) ==> Consistent(next)
    ensures e.DetachedFromEngine? ==> !next.initialized && !next.hasContext && next.hasActivity == st.hasActivity
    ensures e.DetachedFromActivity? ==> !next.initialized && !next.hasActivity && next.hasContext == st.hasContext
    ensures e.AttachedToEngine? ==> next.hasContext && next.initialized == st.initialized && next.hasActivity == st.hasActivity
    ensures e.AttachedToActivity? ==> next.hasActivity && next.initialized == st.initialized && next.hasContext == st.hasContext
  {
    match e
    case Call(name, args, sdk) => Handle(st, name, args, sdk).state
    case AttachedToEngine => st.(hasContext := true)
    case DetachedFromEngine => st.(initialized := false, hasContext := false)
    case AttachedToActivity => st.(hasActivity := true)
    case DetachedFromActivity => st.(initialized := false, hasActivity := false)
  }

  /** The state after a sequence of events, first event first. */
  function Run(st: State, events: seq<Event>): (last: State)
    decreases |events|
  {
    if events == [] then st else Run(Apply(st, events[0]), events[1..])
  }

  /** A setup call whose SDK callback reports success. */
  predicate CompletesSetup(e: Event)
  {
    e.Call? && e.name == "setup" && e.sdk.Completed?
  }

  /** A setup call, in state `st`, that reaches Carrot.setup and whose
      callback reports success. */
  predicate SucceedsSetup(st: State, e: Event)
  {
    CompletesSetup(e) && Handle(st, e.name, e.args, e.sdk).call.Setup?
  }

  /** An event that can bring the flag down: de_init or a detach hook. */
  predicate MayClear(e: Event)
  {
    e.DetachedFromEngine? || e.DetachedFromActivity? || (e.Call? && e.name == "de_init")
  }

  /** No sequence of events breaks "initialized only with a context". */
  lemma {:induction false} RunKeepsConsistent(st: State, events: seq<Event>)
    requires Consistent(st)
    ensures Consistent(Run(st, events))
    decreases |events|
  {
    if events != [] {
      RunKeepsConsistent(Apply(st, events[0]), events[1..]);
    }
  }

  /** The flag only goes up through a setup that reaches the SDK and whose
      callback succeeds. */
  lemma {:induction false} InitializedOnlyBySetup(st: State, events: seq<Event>)
    requires !st.initialized
    ensures Run(st, events).initialized ==>
      exists i :: 0 <= i < |events| && SucceedsSetup(Run(st, events[..i]), events[i])
    decreases |events|
  {
    if events != [] && Run(st, events).initialized {
      var next := Apply(st, events[0]);
      if next.initialized {
        assert events[..0] == [];
        assert SucceedsSetup(Run(st, events[..0]), events[0]);
      } else {
        InitializedOnlyBySetup(next, events[1..]);
        var j :| 0 <= j < |events[1..]| && SucceedsSetup(Run(next, events[1..][..j]), events[1..][j]);
        assert events[..j + 1][1..] == events[1..][..j];
        assert Run(st, events[..j + 1]) == Run(next, events[1..][..j]);
        assert SucceedsSetup(Run(st, events[..j + 1]), events[j + 1]);
      }
    }
  }

  /** Until a setup succeeds, every gated command answers the "hasn't been
      initialized" error, reaches no SDK operation and changes nothing. */
  lemma GatedUntilSetup(events: seq<Event>, name: string, args: Args, sdk: Sdk.SdkOutcome)
    requires forall i :: 0 <= i < |events| ==> !SucceedsSetup(Run(Initial, events[..i]), events[i])
    requires name in GatedCommands
    ensures var st := Run(Initial, events);
      Handle(st, name, args, sdk) == Reply(Error(NotInitialized), Sdk.NoCall, st)
  {
    InitializedOnlyBySetup(Initial, events);
  }

  /** Once up, the flag stays up until de_init or a detach hook. */
  lemma {:induction false} StaysInitialized(st: State, events: seq<Event>)
    requires st.initialized
    requires forall i :: 0 <= i < |events| ==> !MayClear(events[i])
    ensures Run(st, events).initialized
    decreases |events|
  {
    if events != [] {
      assert !MayClear(events[0]);
      StaysInitialized(Apply(st, events[0]), events[1..]);
    }
  }

  /** Setup is one-shot: after a successful setup, a later setup with no
      de_init or detach in between answers "already initialized" and never
      reaches the SDK. */
  lemma SetupIsOneShot(st: State, first: Args, v: Option<bool>, events: seq<Event>, args: Args, sdk: Sdk.SdkOutcome)
    requires Handle(st, "setup", first, Sdk.Completed(v)).call != Sdk.NoCall
    requires forall i :: 0 <= i < |events| ==> !MayClear(events[i])
    ensures var later := Run(Handle(st, "setup", first, Sdk.Completed(v)).state, events);
      Handle(later, "setup", args, sdk) == Reply(Error(AlreadyInitialized), Sdk.NoCall, later)
  {
    StaysInitialized(Handle(st, "setup", first, Sdk.Completed(v)).state, events);
  }
}
