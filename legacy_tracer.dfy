/** The older hook list around `sys.settrace` of the top-level `tracer.py`:
    entries carry no ignored frame, and `add_hook` and `start` take their
    options as positional parameters. */
module LegacyTracer {
  import opened Py
  import opened TraceHooks

  /** What can be passed as `event_set`: None, a set of event names, or
      another value (a list, tuple or string), which has no `issubset`;
      `truthy` is its Python truthiness. */
  datatype EventSetArg =
    | NoneValue
    | SetValue(names: set<string>)
    | OtherValue(truthy: bool)

  /** `Trace_entry(trace_fn, event_set)`. */
  datatype Entry = Entry(traceFn: PyObject, eventSet: Option<set<string>>)

  /** `HOOKS` and `STARTED_STATE`, with whether `sys.settrace` has
      `_tracer_func` installed. */
  datatype TracerState = TracerState(hooks: seq<Entry>, started: bool, tracing: bool)

  /** What an operation returns or raises, and the state after it. */
  datatype Outcome<T> = Outcome(result: Result<T, PyError>, state: TracerState)

  /** `_check_event_set(event_set)`, with the event set it lets through:
      None and any subset of `ALL_EVENTS` pass; another set raises
      TypeError, and a value with no `issubset` raises AttributeError. */
  function CheckEventSet(eventSet: EventSetArg): (r: Result<Option<set<string>>, PyError>)
    ensures r.Ok? <==> eventSet.NoneValue? || (eventSet.SetValue? && eventSet.names <= AllEvents)
    ensures r.Ok? ==> r.value == (if eventSet.NoneValue? then None else Some(eventSet.names))
    ensures eventSet.SetValue? && !(eventSet.names <= AllEvents) ==> r == Err(TypeError)
    ensures eventSet.OtherValue? ==> r == Err(AttributeError)
  {
    match eventSet
    case NoneValue => Ok(None)
    case SetValue(s) => if s <= AllEvents then Ok(Some(s)) else Err(TypeError)
    case OtherValue(_) => Err(AttributeError)
  }

  /** `_find_hook(trace_fn)`: the first entry running `fn`, or None. */
  function FindHook(hooks: seq<Entry>, fn: PyObject): (r: Option<nat>)
    ensures r.Some? ==> r.value < |hooks| && hooks[r.value].traceFn == fn
    ensures r.Some? ==> forall j :: 0 <= j < r.value ==> hooks[j].traceFn != fn
    ensures r.None? <==> forall j :: 0 <= j < |hooks| ==> hooks[j].traceFn != fn
  {
    if |hooks| == 0 then None
    else if hooks[0].traceFn == fn then Some(0)
    else match FindHook(hooks[1..], fn)
      case None => None
      case Some(i) => Some(i + 1)
  }

  /** `to_front and 0 or -1`: `and` gives 0 when `to_front` is true and
      `to_front` itself, False, when it is not; both are falsy, so `or`
      gives -1. */
  function Position(toFront: bool): (r: int)
    ensures r == -1
  {
    // the truthiness of `to_front and 0` is that of both operands, and 0 is falsy
    var conjunctionTruthy := toFront && false;
    if conjunctionTruthy then 0 else -1
  }

  /** After `sys.settrace(_tracer_func)`. */
  function Started(st: TracerState): TracerState {
    st.(started := true, tracing := true)
  }

  /** After `sys.settrace(None)`. */
  function Stopped(st: TracerState): TracerState {
    st.(started := false, tracing := false)
  }

  /** `stop()`. */
  function StopSpec(st: TracerState): Outcome<nat> {
    Outcome(Ok(|st.hooks|), Stopped(st))
  }

  /** `add_hook(trace_fn, to_front, do_start, event_set)`. */
  function AddHookSpec(st: TracerState, o: PyObject, toFront: bool, doStart: bool,
                       eventSet: EventSetArg): Outcome<nat> {
    if CheckTraceFn(o).Err? then Outcome(Err(TypeError), st)
    else match CheckEventSet(eventSet)
      case Err(e) => Outcome(Err(e), st)
      case Ok(checked) =>
        var added := st.(hooks := SliceInsert(st.hooks, Position(toFront), Entry(o, checked)));
        Outcome(Ok(|added.hooks|), if doStart then Started(added) else added)
  }

  /** `remove_hook(trace_fn, stop_if_empty)`. */
  function RemoveHookSpec(st: TracerState, fn: PyObject, stopIfEmpty: bool): Outcome<nat> {
    match FindHook(st.hooks, fn)
    case None => Outcome(Err(LookupError), st)
    case Some(i) =>
      var removed := st.(hooks := Delete(st.hooks, i));
      if |removed.hooks| == 0 && stopIfEmpty then Outcome(Ok(0), Stopped(removed))
      else Outcome(Ok(|removed.hooks|), removed)
  }

  /** Python truthiness of an event set passed where a flag is expected. */
  predicate Truthy(eventSet: EventSetArg) {
    match eventSet
    case NoneValue => false
    case SetValue(s) => s != {}
    case OtherValue(t) => t
  }

  /** `start(trace_fn, to_front, event_set)`: its call
      `add_hook(trace_fn, to_front, event_set)` passes `event_set` as
      `do_start`, so the entry is stored with no event set. */
  function StartSpec(st: TracerState, traceFn: Option<PyObject>, toFront: bool,
                     eventSet: EventSetArg): Outcome<nat> {
    var added :=
      if traceFn.None? then Outcome(Ok(0), st)
      else AddHookSpec(st, traceFn.value, toFront, Truthy(eventSet), NoneValue);
    match added.result
    case Err(e) => Outcome(Err(e), added.state)
    case Ok(_) => Outcome(Ok(|added.state.hooks|), Started(added.state))
  }

  /** `clear_hooks_and_stop()`. */
  function ClearHooksAndStopSpec(st: TracerState): TracerState {
    (if st.started then Stopped(st) else st).(hooks := [])
  }

  /** Whether `_tracer_func` runs `e` for `event`. */
  predicate Admits(e: Entry, event: string) {
    e.eventSet.None? || event in e.eventSet.value
  }

  /** The trace functions `_tracer_func` calls, in order. */
  function Dispatched(hooks: seq<Entry>, event: string): seq<PyObject> {
    if |hooks| == 0 then []
    else
      var last := hooks[|hooks| - 1];
      Dispatched(hooks[..|hooks| - 1], event) + (if Admits(last, event) then [last.traceFn] else [])
  }

  /** The positions of the admitted entries, in increasing order. */
  function AdmittedPositions(hooks: seq<Entry>, event: string): seq<nat> {
    if |hooks| == 0 then []
    else
      var n := |hooks| - 1;
      AdmittedPositions(hooks[..n], event) + (if Admits(hooks[n], event) then [n] else [])
  }

  /** `d` lists the functions of the entries at positions `p`, which are
      increasing, admit `event`, and include every admitting position. */
  ghost predicate CallsInOrder(hooks: seq<Entry>, event: string, d: seq<PyObject>, p: seq<nat>) {
    && |d| == |p| <= |hooks|
    && (forall k :: 0 <= k < |p| ==> p[k] < |hooks| && Admits(hooks[p[k]], event) && d[k] == hooks[p[k]].traceFn)
    && (forall k, l :: 0 <= k < l < |p| ==> p[k] < p[l])
    && (forall i :: 0 <= i < |hooks| && Admits(hooks[i], event) ==> i in p)
  }

  /** Appending an entry keeps the calls in order. */
  lemma CallsInOrderExtend(front: seq<Entry>, last: Entry, event: string, d: seq<PyObject>, p: seq<nat>)
    requires CallsInOrder(front, event, d, p)
    ensures var n := |front|;
      CallsInOrder(front + [last], event,
                   d + (if Admits(last, event) then [last.traceFn] else []),
                   p + (if Admits(last, event) then [n] else []))
  {
    var hooks, n := front + [last], |front|;
    var d1 := d + (if Admits(last, event) then [last.traceFn] else []);
    var p1 := p + (if Admits(last, event) then [n] else []);
    forall k | 0 <= k < |p1|
      ensures p1[k] < |hooks| && Admits(hooks[p1[k]], event) && d1[k] == hooks[p1[k]].traceFn
    {
      if k < |p| {
        assert p1[k] == p[k] && d1[k] == d[k] && hooks[p[k]] == front[p[k]];
      }
    }
    forall k, l | 0 <= k < l < |p1|
      ensures p1[k] < p1[l]
    {
      if l >= |p| {
        assert p1[k] == p[k] && p1[l] == n;
      }
    }
    forall i | 0 <= i < |hooks| && Admits(hooks[i], event)
      ensures i in p1
    {
      if i < n {
        assert hooks[i] == front[i];
        var k :| 0 <= k < |p| && p[k] == i;
        assert p1[k] == i;
      } else {
        assert p1[|p1| - 1] == n;
      }
    }
  }

  /** `_tracer_func` calls the admitted entries' functions, once per entry,
      in list order, and nothing else. */
  lemma {:induction false} DispatchOrder(hooks: seq<Entry>, event: string)
    ensures CallsInOrder(hooks, event, Dispatched(hooks, event), AdmittedPositions(hooks, event))
  {
    if |hooks| > 0 {
      var n := |hooks| - 1;
      var front := hooks[..n];
      DispatchOrder(front, event);
      CallsInOrderExtend(front, hooks[n], event, Dispatched(front, event), AdmittedPositions(front, event));
      assert front + [hooks[n]] == hooks;
    }
  }

  /** A function is called for an event exactly when some entry running it
      admits the event. */
  lemma DispatchMembers(hooks: seq<Entry>, event: string, fn: PyObject)
    ensures fn in Dispatched(hooks, event) <==>
            exists i :: 0 <= i < |hooks| && Admits(hooks[i], event) && hooks[i].traceFn == fn
  {
    DispatchOrder(hooks, event);
    var d, p := Dispatched(hooks, event), AdmittedPositions(hooks, event);
    assert CallsInOrder(hooks, event, d, p);
    if fn in d {
      var k :| 0 <= k < |d| && d[k] == fn;
      assert Admits(hooks[p[k]], event) && hooks[p[k]].traceFn == fn;
    }
    if i :| 0 <= i < |hooks| && Admits(hooks[i], event) && hooks[i].traceFn == fn {
      var k :| 0 <= k < |p| && p[k] == i;
      assert d[k] == fn;
    }
  }

  /** `add_hook` fails, changing nothing, exactly for anything but a plain
      function of three arguments, for an event set outside `ALL_EVENTS`
      (TypeError), or for an event set with no `issubset` (AttributeError). */
  lemma AddHookRejects(st: TracerState, o: PyObject, toFront: bool, doStart: bool, eventSet: EventSetArg)
    ensures var r := AddHookSpec(st, o, toFront, doStart, eventSet);
      && (r.result.Err? <==>
            !(o.Function? && o.argCount == 3) || eventSet.OtherValue? ||
            (eventSet.SetValue? && !(eventSet.names <= AllEvents)))
      && (r.result.Err? ==> r.state == st && r.result.error != LookupError)
      && (r.result == Err(AttributeError) <==> o.Function? && o.argCount == 3 && eventSet.OtherValue?)
  {
  }

  /** Whatever `to_front` says, a valid `add_hook` places its entry just
      before the last one, or alone in an empty list, and returns the old
      length plus one. */
  lemma AddHookInsertsBeforeLast(st: TracerState, o: PyObject, toFront: bool, doStart: bool, eventSet: EventSetArg)
    requires CheckTraceFn(o).Ok? && CheckEventSet(eventSet).Ok?
    ensures var r, e := AddHookSpec(st, o, toFront, doStart, eventSet), Entry(o, CheckEventSet(eventSet).value);
      && r.result == Ok(|st.hooks| + 1)
      && (|st.hooks| == 0 ==> r.state.hooks == [e])
      && (|st.hooks| > 0 ==>
            r.state.hooks == st.hooks[..|st.hooks| - 1] + [e, st.hooks[|st.hooks| - 1]])
  {
    var n := |st.hooks|;
    if n > 0 {
      assert SliceIndex(-1, n) == n - 1;
      assert st.hooks[n - 1..] == [st.hooks[n - 1]];
    }
  }

  /** With `to_front` set and two entries present, the new entry is not at
      the front. */
  lemma AddHookToFrontMisses(o: PyObject, a: Entry, b: Entry)
    requires CheckTraceFn(o).Ok?
    ensures AddHookSpec(TracerState([a, b], false, false), o, true, false, NoneValue).state.hooks
            == [a, Entry(o, None), b]
  {
    AddHookInsertsBeforeLast(TracerState([a, b], false, false), o, true, false, NoneValue);
  }

  /** `remove_hook` raises LookupError, changing nothing, exactly when no
      entry runs `fn`; otherwise it deletes only the first such entry,
      returns the remaining count, and stops tracing when asked to and the
      list is empty. */
  lemma RemoveHookOutcome(st: TracerState, fn: PyObject, stopIfEmpty: bool)
    ensures var r := RemoveHookSpec(st, fn, stopIfEmpty);
      && (r.result == Err(LookupError) <==> forall j :: 0 <= j < |st.hooks| ==> st.hooks[j].traceFn != fn)
      && (r.result.Err? ==> r.state == st)
      && (r.result.Ok? ==>
            var i := FindHook(st.hooks, fn).value;
            && r.state.hooks == Delete(st.hooks, i)
            && r.result.value == |r.state.hooks| == |st.hooks| - 1
            && r.state.started == (st.started && !(stopIfEmpty && |st.hooks| == 1)))
  {
  }

  /** `start(trace_fn, to_front, event_set)` stores its hook with no event
      set whatever `event_set` was, so the hook runs for every event. */
  lemma StartDropsEventSet(st: TracerState, o: PyObject, toFront: bool, eventSet: EventSetArg, event: string)
    requires CheckTraceFn(o).Ok?
    ensures var r := StartSpec(st, Some(o), toFront, eventSet);
      && r.result == Ok(|st.hooks| + 1) && r.state.started
      && Entry(o, None) in r.state.hooks
      && (eventSet.SetValue? && Entry(o, Some(eventSet.names)) !in st.hooks ==>
            Entry(o, Some(eventSet.names)) !in r.state.hooks)
      && o in Dispatched(r.state.hooks, event)
  {
    AddHookInsertsBeforeLast(st, o, toFront, Truthy(eventSet), NoneValue);
    var hooks := StartSpec(st, Some(o), toFront, eventSet).state.hooks;
    var k := if |st.hooks| == 0 then 0 else |st.hooks| - 1;
    assert hooks[k] == Entry(o, None);
    DispatchMembers(hooks, event, o);
  }

  /** `start` as documented: the hook is added with its event set and
      without starting from inside `add_hook`. */
  function IntendedStartSpec(st: TracerState, traceFn: Option<PyObject>, toFront: bool,
                             eventSet: EventSetArg): Outcome<nat> {
    var added :=
      if traceFn.None? then Outcome(Ok(0), st)
      else AddHookSpec(st, traceFn.value, toFront, false, eventSet);
    match added.result
    case Err(e) => Outcome(Err(e), added.state)
    case Ok(_) => Outcome(Ok(|added.state.hooks|), Started(added.state))
  }

  /** A hook added by the intended `start` keeps its event set; when no
      other entry runs the same function, it is called for an event exactly
      when that set admits the event. */
  lemma IntendedStartKeepsEventSet(st: TracerState, o: PyObject, toFront: bool, eventSet: EventSetArg, event: string)
    requires CheckTraceFn(o).Ok? && CheckEventSet(eventSet).Ok?
    ensures var r, e := IntendedStartSpec(st, Some(o), toFront, eventSet), Entry(o, CheckEventSet(eventSet).value);
      && r.result == Ok(|st.hooks| + 1) && r.state.started
      && e in r.state.hooks
      && ((forall j :: 0 <= j < |st.hooks| ==> st.hooks[j].traceFn != o) ==>
            (o in Dispatched(r.state.hooks, event) <==> Admits(e, event)))
  {
    AddHookInsertsBeforeLast(st, o, toFront, false, eventSet);
    var e := Entry(o, CheckEventSet(eventSet).value);
    var hooks := IntendedStartSpec(st, Some(o), toFront, eventSet).state.hooks;
    var n := |st.hooks|;
    var k := if n == 0 then 0 else n - 1;
    assert hooks[k] == e;
    DispatchMembers(hooks, event, o);
    if forall j :: 0 <= j < n ==> st.hooks[j].traceFn != o {
      assert forall i :: 0 <= i < |hooks| && i != k ==> hooks[i].traceFn != o by {
        forall i | 0 <= i < |hooks| && i != k
          ensures hooks[i].traceFn != o
        {
          if i < k {
            assert hooks[i] == st.hooks[i];
          } else {
            assert hooks[i] == st.hooks[n - 1];
          }
        }
      }
    }
  }

  /** `start()` without a function marks tracing started and `stop()` marks
      it stopped; neither touches the list, and both return its length. */
  lemma StartThenStop(st: TracerState, toFront: bool, eventSet: EventSetArg)
    ensures var started := StartSpec(st, None, toFront, eventSet);
      && started == Outcome(Ok(|st.hooks|), Started(st))
      && StopSpec(started.state) == Outcome(Ok(|st.hooks|), st.(started := false, tracing := false))
  {
  }

  /** `clear_hooks_and_stop()` leaves no hooks and tracing stopped. */
  lemma ClearHooksAndStopEmpties(st: TracerState)
    ensures ClearHooksAndStopSpec(st).hooks == [] && !ClearHooksAndStopSpec(st).started
  {
  }

  /** The hook list and flag, updated in place. */
  class Tracer {
    var hooks: seq<Entry>
    var started: bool
    var tracing: bool

    function State(): TracerState
      reads this
    {
      TracerState(hooks, started, tracing)
    }

    /** The state at import: no hooks, not started. */
    constructor()
      ensures State() == TracerState([], false, false)
    {
      hooks, started, tracing := [], false, false;
    }

    /** `size()`. */
    function Size(): (r: nat)
      reads this
      ensures r == |State().hooks|
    {
      |hooks|
    }

    /** `is_started()`. */
    function IsStarted(): (r: bool)
      reads this
      ensures r == State().started
    {
      started
    }

    method AddHook(o: PyObject, toFront: bool, doStart: bool, eventSet: EventSetArg)
      returns (r: Result<nat, PyError>)
      modifies this
      decreases 1
      ensures Outcome(r, State()) == AddHookSpec(old(State()), o, toFront, doStart, eventSet)
    {
      if !IsFunction(o) {
        return Err(TypeError);
      }
      if 3 != o.argCount {
        return Err(TypeError);
      }
      var checked := CheckEventSet(eventSet);
      if checked.Err? {
        return Err(checked.error);
      }
      var position := Position(toFront);
      hooks := SliceInsert(hooks, position, Entry(o, checked.value));
      if doStart {
        var _ := Start(None, false, NoneValue);
      }
      return Ok(|hooks|);
    }

    method ClearHooks()
      modifies this
      ensures State() == old(State()).(hooks := [])
    {
      hooks := [];
    }

    method ClearHooksAndStop()
      modifies this
      ensures State() == ClearHooksAndStopSpec(old(State()))
    {
      if started {
        var _ := Stop();
      }
      ClearHooks();
    }

    method RemoveHook(fn: PyObject, stopIfEmpty: bool) returns (r: Result<nat, PyError>)
      modifies this
      ensures Outcome(r, State()) == RemoveHookSpec(old(State()), fn, stopIfEmpty)
    {
      var i := FindHook(hooks, fn);
      if i.Some? {
        hooks := Delete(hooks, i.value);
        if 0 == |hooks| && stopIfEmpty {
          var _ := Stop();
          return Ok(0);
        }
        return Ok(|hooks|);
      }
      return Err(LookupError);
    }

    method Start(traceFn: Option<PyObject>, toFront: bool, eventSet: EventSetArg)
      returns (r: Result<nat, PyError>)
      modifies this
      decreases if traceFn.Some? then 2 else 0
      ensures Outcome(r, State()) == StartSpec(old(State()), traceFn, toFront, eventSet)
    {
      if traceFn.Some? {
        var added := AddHook(traceFn.value, toFront, Truthy(eventSet), NoneValue);
        if added.Err? {
          return Err(added.error);
        }
      }
      tracing := true;
      started := true;
      return Ok(|hooks|);
    }

    method Stop() returns (r: nat)
      modifies this
      ensures Outcome(Ok(r), State()) == StopSpec(old(State()))
    {
      tracing := false;
      started := false;
      return |hooks|;
    }

    /** `_tracer_func(frame, event, arg)`: the functions it calls, in order;
        the list is left as it is. */
    method TracerFunc(event: string) returns (called: seq<PyObject>)
      ensures called == Dispatched(hooks, event)
    {
      called := [];
      for i := 0 to |hooks|
        invariant called == Dispatched(hooks[..i], event)
      {
        var hook := hooks[i];
        if hook.eventSet.None? || event in hook.eventSet.value {
          called := called + [hook.traceFn];
        }
        assert hooks[..i + 1][..i] == hooks[..i];
      }
      assert hooks[..|hooks|] == hooks;
    }
  }
}
