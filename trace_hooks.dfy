/** What the two `sys.settrace` hook lists share: the exceptions they raise,
    the event names `sys.settrace` reports and the check a trace function
    must pass. */
module TraceHooks {
  import opened Py

  /** The exceptions the hook-list operations raise. */
  datatype PyError = TypeError | AttributeError | LookupError

  /** `ALL_EVENTS`: the event names `sys.settrace` hands a trace function. */
  const AllEvents: set<string> :=
    {"c_call", "c_exception", "c_return", "call", "exception", "line", "return"}

  /** The parameter check of `add_hook`: a plain function taking three
      arguments passes; anything else, a bound method included, raises
      TypeError. */
  function CheckTraceFn(o: PyObject): (r: Result<(), PyError>)
    ensures r.Ok? <==> o.Function? && o.argCount == 3
    ensures r.Err? ==> r.error == TypeError
  {
    if !IsFunction(o) then Err(TypeError)
    else if 3 != o.argCount then Err(TypeError)
    else Ok(())
  }

  /** The position `add_hook` documents: the front when `to_front` is set,
      the end otherwise. */
  function IntendedPosition(toFront: bool, n: nat): nat {
    if toFront then 0 else n
  }

  /** Splicing at the documented position prepends or appends. */
  lemma IntendedSpliceEnds<T>(hooks: seq<T>, toFront: bool, entry: T)
    ensures toFront ==> SliceInsert(hooks, IntendedPosition(toFront, |hooks|), entry) == [entry] + hooks
    ensures !toFront ==> SliceInsert(hooks, IntendedPosition(toFront, |hooks|), entry) == hooks + [entry]
  {
    if toFront {
      assert hooks[..0] == [] && hooks[0..] == hooks;
    } else {
      assert hooks[..|hooks|] == hooks && hooks[|hooks|..] == [];
    }
  }
}
