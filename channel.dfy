/** The values that cross the "flutter_carrotquest" method channel: the
    argument bundle of an incoming call and the reply sent back to it. */
module Channel {

  datatype Option<+T> = None | Some(value: T)

  /** A string-to-string map as an argument delivers it: its entries in the
      order the map iterates them, each key at most once. */
  predicate DistinctKeys(entries: seq<(string, string)>)
  {
    forall i, j :: 0 <= i < j < |entries| ==> entries[i].0 != entries[j].0
  }

  type StringMap = entries: seq<(string, string)> | DistinctKeys(entries) witness []

  /** The keys of a list of entries. */
  function KeysOf(entries: seq<(string, string)>): (keys: set<string>)
  {
    set i | 0 <= i < |entries| :: entries[i].0
  }

  /** The lookup table a list of distinct-key entries stands for: one key per
      entry, each bound to that entry's value. */
  function AsMap(entries: seq<(string, string)>): (m: map<string, string>)
    requires DistinctKeys(entries)
    ensures m.Keys == KeysOf(entries)
    ensures forall i :: 0 <= i < |entries| ==> m[entries[i].0] == entries[i].1
  {
    if entries == [] then map[]
    else
      var init, last := entries[..|entries| - 1], entries[|entries| - 1];
      KeysOfSnoc(entries);
      LastKeyIsNew(entries);
      var rest := AsMap(init);
      assert forall i :: 0 <= i < |init| ==> entries[i] == init[i];
      rest[last.0 := last.1]
  }

  /** Every entry contributes its own key: the table is as large as the list. */
  lemma {:induction false} AsMapSize(entries: seq<(string, string)>)
    requires DistinctKeys(entries)
    ensures |AsMap(entries)| == |entries|
  {
    if entries != [] {
      var init := entries[..|entries| - 1];
      LastKeyIsNew(entries);
      AsMapSize(init);
    }
  }

  /** In a list of distinct-key entries the last key occurs in no earlier entry. */
  lemma LastKeyIsNew(entries: seq<(string, string)>)
    requires DistinctKeys(entries) && entries != []
    ensures DistinctKeys(entries[..|entries| - 1])
    ensures entries[|entries| - 1].0 !in KeysOf(entries[..|entries| - 1])
  {
    var init := entries[..|entries| - 1];
    forall i | 0 <= i < |init| ensures init[i].0 != entries[|entries| - 1].0 {
      assert init[i] == entries[i];
    }
  }

  /** The keys of a non-empty list are those of all but its last entry, plus
      the last entry's key. */
  lemma KeysOfSnoc(entries: seq<(string, string)>)
    requires entries != []
    ensures KeysOf(entries) == KeysOf(entries[..|entries| - 1]) + {entries[|entries| - 1].0}
  {
    var init := entries[..|entries| - 1];
    forall k | k in KeysOf(entries) ensures k in KeysOf(init) + {entries[|entries| - 1].0} {
      var i :| 0 <= i < |entries| && entries[i].0 == k;
      if i < |init| { assert init[i] == entries[i]; }
    }
    forall k | k in KeysOf(init) ensures k in KeysOf(entries) {
      var i :| 0 <= i < |init| && init[i].0 == k;
      assert entries[i] == init[i];
    }
  }

  /** A value an argument can hold. `Other` is any value that is neither a
      string, a boolean nor a map (a number, a list, ...). A map whose keys
      or values are not all strings has no representation here. */
  datatype Value = Str(s: string) | Bool(b: bool) | Dict(entries: StringMap) | Other

  /** The argument bundle of a call. A key bound to null is the same as a
      missing key: both read back as null. */
  type Args = map<string, Value>

  /** What a typed read of one argument gives: null, a value of the requested
      type, or a value of another type (the cast to the requested type fails
      with a ClassCastException). */
  datatype Arg<+T> = Absent | Present(value: T) | WrongType

  function StringArg(args: Args, key: string): (a: Arg<string>)
    ensures a.Absent? <==> key !in args
    ensures a.Present? <==> key in args && args[key].Str?
    ensures a.Present? ==> args[key] == Str(a.value)
  {
    if key !in args then Absent
    else match args[key]
      case Str(s) => Present(s)
      case _ => WrongType
  }

  function BoolArg(args: Args, key: string): (a: Arg<bool>)
    ensures a.Absent? <==> key !in args
    ensures a.Present? <==> key in args && args[key].Bool?
    ensures a.Present? ==> args[key] == Bool(a.value)
  {
    if key !in args then Absent
    else match args[key]
      case Bool(b) => Present(b)
      case _ => WrongType
  }

  function DictArg(args: Args, key: string): (a: Arg<StringMap>)
    ensures a.Absent? <==> key !in args
    ensures a.Present? <==> key in args && args[key].Dict?
    ensures a.Present? ==> args[key] == Dict(a.value)
  {
    if key !in args then Absent
    else match args[key]
      case Dict(entries) => Present(entries)
      case _ => WrongType
  }

  /** The reply to one call. The plugin answers every error as
      `result.error(text, null, null)`: the text travels as the error code,
      with no message and no details, and `Error(code)` carries that text.
      `Threw` means that onMethodCall itself let an exception out (a wrongly
      typed argument), so that the plugin answered
      nothing and the host channel reports the exception. */
  datatype Response =
    | Success(value: Option<bool>)
    | Error(code: string)
    | NotImplemented
    | Threw
}
