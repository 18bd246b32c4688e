/** The ordered hook list around `sys.settrace` of `tracer/tracer.py`:
    entries are spliced in by `add_hook`, deleted by `remove_hook`, and an
    event is fanned out to the entries that admit it. */
module Tracer {
  import opened Py
  import opened TraceHooks

  /** A value held in an options dictionary. */
  datatype OptionValue =
    | NoValue
    | Flag(flag: bool)
    | Number(number: int)
    | Names(names: set<string>)
    | Object(obj: PyObject)
    | Dict(entries: map<string, OptionValue>)

  type Options = map<string, OptionValue>

  /** Python truthiness of an option value. */
  predicate Truthy(v: OptionValue) {
    match v
    case NoValue => false
    case Flag(b) => b
    case Number(n) => n != 0
    case Names(s) => s != {}
    case Object(_) => true
    case Dict(m) => m != map[]
  }

  /** `DEFAULT_ADD_HOOK_OPTS`. */
  const DefaultAddHookOpts: Options :=
    map["front" := Flag(false), "start" := Flag(false),
        "event_set" := Names(AllEvents), "ignore_me" := Flag(false)]

  /** `DEFAULT_START_OPTS`. */
  const DefaultStartOpts: Options :=
    map["trace_fn" := NoValue, "add_hook_opts" := Dict(DefaultAddHookOpts),
        "include_threads" := Flag(false)]

  /** `_option_set(options, key, default_opts)`. */
  function OptionSet(options: Options, key: string, defaults: Options): OptionValue {
    if key in options then options[key]
    else if key in defaults then defaults[key]
    else NoValue
  }

  /** Looking a key up is the same as reading the defaults overridden by the
      given options, and None when neither has it. */
  lemma OptionSetIsOverride(options: Options, key: string, defaults: Options)
    ensures key in defaults + options ==> OptionSet(options, key, defaults) == (defaults + options)[key]
    ensures key !in defaults + options ==> OptionSet(options, key, defaults) == NoValue
  {
  }

  /** `_check_event_set` on an option value: None and any subset of
      `ALL_EVENTS` pass; another set raises TypeError, and a value with no
      `issubset` raises AttributeError. */
  function CheckEventSet(v: OptionValue): (r: Result<Option<set<string>>, PyError>)
    ensures r.Ok? <==> v.NoValue? || (v.Names? && v.names <= AllEvents)
    ensures r.Ok? ==> r.value == (if v.NoValue? then None else Some(v.names))
    ensures v.Names? && !(v.names <= AllEvents) ==> r == Err(TypeError)
    ensures !v.NoValue? && !v.Names? ==> r == Err(AttributeError)
  {
    match v
    case NoValue => Ok(None)
    case Names(s) => if s <= AllEvents then Ok(Some(s)) else Err(TypeError)
    case _ => Err(AttributeError)
  }

  /** `Trace_entry(trace_fn, event_set, ignore_frame)`. */
  datatype Entry = Entry(traceFn: PyObject, eventSet: Option<set<string>>, ignoreFrame: Option<Frame>)

  /** `[entry.trace_fn for entry in HOOKS]`. */
  function TraceFns(hooks: seq<Entry>): (r: seq<PyObject>)
    ensures |r| == |hooks| && forall i :: 0 <= i < |hooks| ==> r[i] == hooks[i].traceFn
  {
    seq(|hooks|, i requires 0 <= i < |hooks| => hooks[i].traceFn)
  }

  /** `_find_hook(trace_fn)`: the first entry running `fn`, or None. */
  function FindHook(hooks: seq<Entry>, fn: PyObject): (r: Option<nat>)
    ensures r.Some? ==> r.value < |hooks| && hooks[r.value].traceFn == fn
    ensures r.Some? ==> forall j :: 0 <= j < r.value ==> hooks[j].traceFn != fn
    ensures r.None? <==> forall j :: 0 <= j < |hooks| ==> hooks[j].traceFn != fn
  {
    var fns := TraceFns(hooks);
    var r := FirstIndex(fns, fn);
    assert r.Some? ==> forall j :: 0 <= j < r.value ==> fns[..r.value][j] == hooks[j].traceFn;
    r
  }

  /** `HOOKS[position:position] = [entry]`: a bool bound is 0 or 1, an int
      bound is clamped; a None bound makes the slice the whole list, which
      the entry replaces; any other bound raises TypeError. */
  function Splice(hooks: seq<Entry>, position: OptionValue, entry: Entry): (r: Result<seq<Entry>, PyError>)
    ensures r.Ok? <==> position.Flag? || position.Number? || position.NoValue?
    ensures position.NoValue? ==> r == Ok([entry])
    ensures position.Flag? ==> r == Ok(SliceInsert(hooks, if position.flag then 1 else 0, entry))
    ensures position.Number? ==> r == Ok(SliceInsert(hooks, position.number, entry))
  {
    match position
    case Flag(b) => Ok(SliceInsert(hooks, if b then 1 else 0, entry))
    case Number(n) => Ok(SliceInsert(hooks, n, entry))
    case NoValue => Ok([entry])
    case _ => Err(TypeError)
  }

  /** The module's globals `HOOKS` and `STARTED_STATE`, with whether
      `_tracer_func` is installed by `sys.settrace` and by
      `threading.settrace`. */
  datatype TracerState = TracerState(hooks: seq<Entry>, started: bool, tracing: bool, threadTracing: bool)

  /** What an operation returns or raises, and the state after it. */
  datatype Outcome<T> = Outcome(result: Result<T, PyError>, state: TracerState)

  /** After `sys.settrace(_tracer_func)`. */
  function Started(st: TracerState): TracerState {
    st.(started := true, tracing := true)
  }

  /** After `sys.settrace(None)`. */
  function Stopped(st: TracerState): TracerState {
    st.(started := false, tracing := false)
  }

  /** `stop()`. */
  function StopSpec(st: TracerState): Outcome<nat> {
    Outcome(Ok(|st.hooks|), Stopped(st))
  }

  /** The frame an entry added from `caller` skips: `caller` itself when the
      `ignore_me` option is set. */
  function IgnoreFrame(options: Options, caller: Frame): Option<Frame> {
    if Truthy(OptionSet(options, "ignore_me", DefaultAddHookOpts)) then Some(caller) else None
  }

  /** The slice bound a bool or int `front` option denotes. */
  function FrontIndex(front: OptionValue): int
    requires front.Flag? || front.Number?
  {
    if front.Flag? then (if front.flag then 1 else 0) else front.number
  }

  /** `add_hook(trace_fn, options)` called from frame `caller`: check the
      function and the event set, splice the entry in at the `front` option,
      start if asked, and return the new length. */
  function AddHookSpec(st: TracerState, traceFn: OptionValue, options: Options, caller: Frame): Outcome<nat> {
    if !traceFn.Object? || CheckTraceFn(traceFn.obj).Err? then Outcome(Err(TypeError), st)
    else match CheckEventSet(OptionSet(options, "event_set", DefaultAddHookOpts))
      case Err(e) => Outcome(Err(e), st)
      case Ok(eventSet) =>
        var entry := Entry(traceFn.obj, eventSet, IgnoreFrame(options, caller));
        match Splice(st.hooks, OptionSet(options, "front", DefaultAddHookOpts), entry)
        case Err(e) => Outcome(Err(e), st)
        case Ok(hooks) =>
          var added := st.(hooks := hooks);
          Outcome(Ok(|hooks|),
                  if Truthy(OptionSet(options, "start", DefaultAddHookOpts)) then Started(added) else added)
  }

  /** `remove_hook(trace_fn, stop_if_empty)`. */
  function RemoveHookSpec(st: TracerState, fn: PyObject, stopIfEmpty: bool): Outcome<nat> {
    match FindHook(st.hooks, fn)
    case None => Outcome(Err(LookupError), st)
    case Some(i) =>
      var removed := st.(hooks := Delete(st.hooks, i));
      if |removed.hooks| == 0 && stopIfEmpty then Outcome(Ok(0), Stopped(removed))
      else Outcome(Ok(|removed.hooks|), removed)
  }

  /** `start(options)` called from frame `frame`: add the `trace_fn` option
      if it is not None, install `_tracer_func` for threads if asked, then
      for this thread, and return the number of hooks. */
  function StartSpec(st: TracerState, options: Options, frame: Frame): Outcome<nat> {
    var traceFn := OptionSet(options, "trace_fn", DefaultStartOpts);
    var added :=
      if traceFn.NoValue? then Outcome(Ok(0), st)
      else match OptionSet(options, "add_hook_opts", DefaultStartOpts)
        case Dict(m) => AddHookSpec(st, traceFn, m, frame)
        case _ => Outcome(Err(TypeError), st);
    match added.result
    case Err(e) => Outcome(Err(e), added.state)
    case Ok(_) =>
      var threads := added.state.threadTracing || Truthy(OptionSet(options, "include_threads", DefaultStartOpts));
      var st1 := added.state.(threadTracing := threads);
      Outcome(Ok(|st1.hooks|), Started(st1))
  }

  /** `clear_hooks_and_stop()`. */
  function ClearHooksAndStopSpec(st: TracerState): TracerState {
    (if st.started then Stopped(st) else st).(hooks := [])
  }

  /** Whether `_tracer_func` runs `e` for `event` in `frame`. */
  predicate Admits(e: Entry, frame: Frame, event: string) {
    e.ignoreFrame != Some(frame) && (e.eventSet.None? || event in e.eventSet.value)
  }

  /** The trace functions `_tracer_func` calls, in order. */
  function Dispatched(hooks: seq<Entry>, frame: Frame, event: string): seq<PyObject> {
    if |hooks| == 0 then []
    else
      var last := hooks[|hooks| - 1];
      Dispatched(hooks[..|hooks| - 1], frame, event) + (if Admits(last, frame, event) then [last.traceFn] else [])
  }

  /** The positions of the admitted entries, in increasing order. */
  function AdmittedPositions(hooks: seq<Entry>, frame: Frame, event: string): seq<nat> {
    if |hooks| == 0 then []
    else
      var n := |hooks| - 1;
      AdmittedPositions(hooks[..n], frame, event) + (if Admits(hooks[n], frame, event) then [n] else [])
  }

  /** `_tracer_func` calls the admitted entries' functions, each once per
      entry, in list order, and nothing else. */
  lemma {:induction false} DispatchOrder(hooks: seq<Entry>, frame: Frame, event: string)
    ensures var d, p := Dispatched(hooks, frame, event), AdmittedPositions(hooks, frame, event);
      && |d| == |p| <= |hooks|
      && (forall k :: 0 <= k < |p| ==> p[k] < |hooks| && Admits(hooks[p[k]], frame, event) && d[k] == hooks[p[k]].traceFn)
      && (forall k, l :: 0 <= k < l < |p| ==> p[k] < p[l])
      && (forall i :: 0 <= i < |hooks| && Admits(hooks[i], frame, event) ==> i in p)
  {
    if |hooks| > 0 {
      var n := |hooks| - 1;
      var front := hooks[..n];
      DispatchOrder(front, frame, event);
      assert forall i :: 0 <= i < n ==> front[i] == hooks[i];
    }
  }

  /** A function is called for an event exactly when some entry running it
      admits the event. */
  lemma DispatchMembers(hooks: seq<Entry>, frame: Frame, event: string, fn: PyObject)
    ensures fn in Dispatched(hooks, frame, event) <==>
            exists i :: 0 <= i < |hooks| && Admits(hooks[i], frame, event) && hooks[i].traceFn == fn
  {
    DispatchOrder(hooks, frame, event);
    var d, p := Dispatched(hooks, frame, event), AdmittedPositions(hooks, frame, event);
    if fn in d {
      var k :| 0 <= k < |d| && d[k] == fn;
      assert Admits(hooks[p[k]], frame, event) && hooks[p[k]].traceFn == fn;
    }
    if i :| 0 <= i < |hooks| && Admits(hooks[i], frame, event) && hooks[i].traceFn == fn {
      var k :| 0 <= k < |p| && p[k] == i;
      assert d[k] == fn;
    }
  }

  /** With no ignored frame and every event set None, every entry runs, in order. */
  lemma {:induction false} DispatchAll(hooks: seq<Entry>, frame: Frame, event: string)
    requires forall i :: 0 <= i < |hooks| ==> hooks[i].eventSet.None? && hooks[i].ignoreFrame.None?
    ensures Dispatched(hooks, frame, event) == TraceFns(hooks)
  {
    if |hooks| > 0 {
      DispatchAll(hooks[..|hooks| - 1], frame, event);
    }
  }

  /** `add_hook` raises TypeError, changing nothing, for anything but a
      plain function of three arguments. */
  lemma AddHookRejects(st: TracerState, traceFn: OptionValue, options: Options, caller: Frame)
    requires !(traceFn.Object? && traceFn.obj.Function? && traceFn.obj.argCount == 3)
    ensures AddHookSpec(st, traceFn, options, caller) == Outcome(Err(TypeError), st)
  {
  }

  /** A valid `add_hook` with a bool or int `front` splices its entry in at
      that bound and returns the new length. */
  lemma AddHookSplices(st: TracerState, o: PyObject, options: Options, caller: Frame)
    requires CheckTraceFn(o).Ok?
    requires CheckEventSet(OptionSet(options, "event_set", DefaultAddHookOpts)).Ok?
    requires var front := OptionSet(options, "front", DefaultAddHookOpts); front.Flag? || front.Number?
    ensures var r := AddHookSpec(st, Object(o), options, caller);
      var entry := Entry(o, CheckEventSet(OptionSet(options, "event_set", DefaultAddHookOpts)).value, IgnoreFrame(options, caller));
      && r.state.hooks == SliceInsert(st.hooks, FrontIndex(OptionSet(options, "front", DefaultAddHookOpts)), entry)
      && r.result == Ok(|r.state.hooks|)
  {
  }

  /** With a bool or int `front`, a successful `add_hook` inserts exactly its
      entry at the clamped slice position, keeps the other entries in order
      around it, and returns the new length. */
  lemma AddHookInserts(st: TracerState, o: PyObject, options: Options, caller: Frame)
    requires CheckTraceFn(o).Ok?
    requires CheckEventSet(OptionSet(options, "event_set", DefaultAddHookOpts)).Ok?
    requires var front := OptionSet(options, "front", DefaultAddHookOpts); front.Flag? || front.Number?
    ensures var r := AddHookSpec(st, Object(o), options, caller);
      var k := SliceIndex(FrontIndex(OptionSet(options, "front", DefaultAddHookOpts)), |st.hooks|);
      && r.result == Ok(|st.hooks| + 1) && |r.state.hooks| == |st.hooks| + 1
      && k <= |st.hooks| && r.state.hooks[k].traceFn == o
      && Delete(r.state.hooks, k) == st.hooks
      && multiset(r.state.hooks) == multiset(st.hooks) + multiset{r.state.hooks[k]}
  {
    AddHookSplices(st, o, options, caller);
    var p := FrontIndex(OptionSet(options, "front", DefaultAddHookOpts));
    var entry := Entry(o, CheckEventSet(OptionSet(options, "event_set", DefaultAddHookOpts)).value, IgnoreFrame(options, caller));
    SliceInsertShape(st.hooks, p, entry);
    var hooks := SliceInsert(st.hooks, p, entry);
    var k := SliceIndex(p, |st.hooks|);
    assert Delete(hooks, k) == hooks[..k] + hooks[k + 1..];
  }

  /** With the default options `add_hook` puts the entry at the front, with
      event set `ALL_EVENTS` and no ignored frame. */
  lemma AddHookDefaultPrepends(st: TracerState, o: PyObject, caller: Frame)
    requires CheckTraceFn(o).Ok?
    ensures AddHookSpec(st, Object(o), DefaultAddHookOpts, caller)
            == Outcome(Ok(|st.hooks| + 1), st.(hooks := [Entry(o, Some(AllEvents), None)] + st.hooks))
  {
    assert SliceInsert(st.hooks, 0, Entry(o, Some(AllEvents), None)) == [Entry(o, Some(AllEvents), None)] + st.hooks;
  }

  /** With `front` True `add_hook` puts the entry second in a non-empty list. */
  lemma AddHookFrontGoesSecond(st: TracerState, o: PyObject, caller: Frame)
    requires CheckTraceFn(o).Ok? && |st.hooks| > 0
    ensures var r := AddHookSpec(st, Object(o), DefaultAddHookOpts["front" := Flag(true)], caller);
            && r.state.hooks[0] == st.hooks[0] && r.state.hooks[1] == Entry(o, Some(AllEvents), None)
  {
  }

  /** `remove_hook` raises LookupError, changing nothing, exactly when no
      entry runs `fn`; otherwise it deletes only the first such entry,
      returns the remaining count, and stops tracing when asked to and the
      list is empty. */
  lemma RemoveHookOutcome(st: TracerState, fn: PyObject, stopIfEmpty: bool)
    ensures var r := RemoveHookSpec(st, fn, stopIfEmpty);
      && (r.result == Err(LookupError) <==> fn !in TraceFns(st.hooks))
      && (r.result.Err? ==> r.state == st)
      && (r.result.Ok? ==>
            var i := FindHook(st.hooks, fn).value;
            && r.state.hooks == Delete(st.hooks, i)
            && r.result.value == |r.state.hooks| == |st.hooks| - 1
            && (forall j :: 0 <= j < i ==> st.hooks[j].traceFn != fn)
            && r.state.started == (st.started && !(stopIfEmpty && |st.hooks| == 1)))
  {
  }

  /** `remove_hook` deletes the entry at the first position running `fn`. */
  lemma RemoveFirst(st: TracerState, fn: PyObject, k: nat, stopIfEmpty: bool)
    requires k < |st.hooks| && st.hooks[k].traceFn == fn
    requires forall j :: 0 <= j < k ==> st.hooks[j].traceFn != fn
    ensures RemoveHookSpec(st, fn, stopIfEmpty).state.hooks == Delete(st.hooks, k)
  {
    assert FindHook(st.hooks, fn) == Some(k);
  }

  /** Adding a function not yet on the list and then removing it gives the
      list back. */
  lemma AddThenRemove(st: TracerState, o: PyObject, options: Options, caller: Frame, stopIfEmpty: bool)
    requires CheckTraceFn(o).Ok? && o !in TraceFns(st.hooks)
    requires CheckEventSet(OptionSet(options, "event_set", DefaultAddHookOpts)).Ok?
    requires var front := OptionSet(options, "front", DefaultAddHookOpts); front.Flag? || front.Number?
    ensures var added := AddHookSpec(st, Object(o), options, caller).state;
            RemoveHookSpec(added, o, stopIfEmpty).state.hooks == st.hooks
  {
    AddHookInserts(st, o, options, caller);
    var added := AddHookSpec(st, Object(o), options, caller).state;
    var k := SliceIndex(FrontIndex(OptionSet(options, "front", DefaultAddHookOpts)), |st.hooks|);
    forall j | 0 <= j < k
      ensures added.hooks[j].traceFn != o
    {
      assert added.hooks[j] == Delete(added.hooks, k)[j] == st.hooks[j];
      assert st.hooks[j].traceFn == TraceFns(st.hooks)[j];
    }
    RemoveFirst(added, o, k, stopIfEmpty);
  }

  /** `start()` with no options installs the dispatcher and marks tracing
      started without touching the list; `stop()` then marks it stopped,
      and both return the number of hooks. */
  lemma StartThenStop(st: TracerState, frame: Frame)
    ensures var started := StartSpec(st, map[], frame);
      && started == Outcome(Ok(|st.hooks|), Started(st))
      && started.state.started && started.state.tracing
      && StopSpec(started.state) == Outcome(Ok(|st.hooks|), st.(started := false, tracing := false))
  {
  }

  /** `clear_hooks_and_stop()` leaves no hooks and tracing stopped. */
  lemma ClearHooksAndStopEmpties(st: TracerState)
    ensures ClearHooksAndStopSpec(st).hooks == [] && !ClearHooksAndStopSpec(st).started
  {
  }

  /** The hook list and flags, updated in place. */
  class Tracer {
    var hooks: seq<Entry>
    var started: bool
    var tracing: bool
    var threadTracing: bool

    function State(): TracerState
      reads this
    {
      TracerState(hooks, started, tracing, threadTracing)
    }

    /** The state at import: no hooks, not started. */
    constructor()
      ensures State() == TracerState([], false, false, false)
    {
      hooks, started, tracing, threadTracing := [], false, false, false;
    }

    /** `size()`. */
    function Size(): (r: nat)
      reads this
      ensures r == |State().hooks|
    {
      |hooks|
    }

    /** `is_started()`. */
    function IsStarted(): (r: bool)
      reads this
      ensures r == State().started
    {
      started
    }

    method AddHook(traceFn: OptionValue, options: Options, caller: Frame) returns (r: Result<nat, PyError>)
      modifies this
      decreases 1
      ensures Outcome(r, State()) == AddHookSpec(old(State()), traceFn, options, caller)
    {
      if !traceFn.Object? || !IsFunction(traceFn.obj) {
        return Err(TypeError);
      }
      if 3 != traceFn.obj.argCount {
        return Err(TypeError);
      }
      var eventSet := CheckEventSet(OptionSet(options, "event_set", DefaultAddHookOpts));
      if eventSet.Err? {
        return Err(eventSet.error);
      }
      var position := OptionSet(options, "front", DefaultAddHookOpts);
      var doStart := Truthy(OptionSet(options, "start", DefaultAddHookOpts));
      var ignoreFrame := IgnoreFrame(options, caller);
      var spliced := Splice(hooks, position, Entry(traceFn.obj, eventSet.value, ignoreFrame));
      if spliced.Err? {
        return Err(spliced.error);
      }
      hooks := spliced.value;
      if doStart {
        var _ := Start(map[], caller);
      }
      return Ok(|hooks|);
    }

    method ClearHooks()
      modifies this
      ensures State() == old(State()).(hooks := [])
    {
      hooks := [];
    }

    method ClearHooksAndStop()
      modifies this
      ensures State() == ClearHooksAndStopSpec(old(State()))
    {
      if started {
        var _ := Stop();
      }
      ClearHooks();
    }

    method RemoveHook(fn: PyObject, stopIfEmpty: bool) returns (r: Result<nat, PyError>)
      modifies this
      ensures Outcome(r, State()) == RemoveHookSpec(old(State()), fn, stopIfEmpty)
    {
      var i := FindHook(hooks, fn);
      if i.Some? {
        hooks := Delete(hooks, i.value);
        if 0 == |hooks| && stopIfEmpty {
          var _ := Stop();
          return Ok(0);
        }
        return Ok(|hooks|);
      }
      return Err(LookupError);
    }

    method Start(options: Options, frame: Frame) returns (r: Result<nat, PyError>)
      modifies this
      decreases if "trace_fn" in options then 2 else 0
      ensures Outcome(r, State()) == StartSpec(old(State()), options, frame)
    {
      var traceFn := OptionSet(options, "trace_fn", DefaultStartOpts);
      if !traceFn.NoValue? {
        var addHookOpts := OptionSet(options, "add_hook_opts", DefaultStartOpts);
        if !addHookOpts.Dict? {
          return Err(TypeError);
        }
        var added := AddHook(traceFn, addHookOpts.entries, frame);
        if added.Err? {
          return Err(added.error);
        }
      }
      if Truthy(OptionSet(options, "include_threads", DefaultStartOpts)) {
        threadTracing := true;
      }
      tracing := true;
      started := true;
      return Ok(|hooks|);
    }

    method Stop() returns (r: nat)
      modifies this
      ensures Outcome(Ok(r), State()) == StopSpec(old(State()))
    {
      tracing := false;
      started := false;
      return |hooks|;
    }

    /** `_tracer_func(frame, event, arg)`: the functions it calls, in order;
        the list is left as it is. */
    method TracerFunc(frame: Frame, event: string) returns (called: seq<PyObject>)
      ensures called == Dispatched(hooks, frame, event)
    {
      called := [];
      var i := 0;
      while i < |hooks|
        invariant i <= |hooks|
        invariant called == Dispatched(hooks[..i], frame, event)
      {
        var hook := hooks[i];
        if hook.ignoreFrame != Some(frame) {
          if hook.eventSet.None? || event in hook.eventSet.value {
            called := called + [hook.traceFn];
          }
        }
        assert hooks[..i + 1][..i] == hooks[..i];
        i := i + 1;
      }
      assert hooks[..i] == hooks;
    }
  }
}
