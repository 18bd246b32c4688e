# pytracer hook management, modelled in Dafny

pytracer keeps several tracing hooks installed at once and lets them be
switched on and off without losing them. This project models the
bookkeeping behind that and proves what it promises:

- **`tracer/sys_monitoring.py`** is the `sys.monitoring` registry. It holds
  two fixed six-slot tables, `TOOL_NAME` and `HOOKS`, and keeps them in step
  with the interpreter's own tool ids. It also installs event masks and
  callbacks from callback tables, and normalises the names of
  `sys.monitoring.events` (`PY_START` becomes `start`).
  - Modules `Events`, `MonitoringHost`, `Monitoring` and `MonitoringLemmas`.
  - The interpreter is an abstract host: tool names, a global mask per tool,
    callbacks per (tool, event), and a local mask per (tool, code).
  - `clear_tool_id` clears a tool's events and callbacks but keeps the id in
    use. `free_tool_id` clears the id and releases it. `use_tool_id` refuses
    an id that is in use.
- **`tracer/tracer.py`** is the ordered hook list around `sys.settrace`.
  `add_hook` splices entries in, `remove_hook` deletes them, `_tracer_func`
  fans an event out to the entries that admit it, and `STARTED_STATE` is
  toggled by `start`/`stop`. Module `Tracer`.
- **The top-level `tracer.py`** is the older version of the same list, with
  positional options. Module `LegacyTracer`.
  - Module `TraceHooks` holds what the two versions share.
  - Module `Py` holds the Python list semantics: `index`, negative
    indexing, slice assignment and `del`.
- **`tracer/tracefilter.py`** is the include filter: a set of code objects
  resolved from frames and functions. Module `TraceFilters`.
- **`tracer/stepping.py`** holds the step-into, step-over and finish event
  masks and the setters that install them for one code object. Module
  `Stepping`.

Event masks are sets of an `Event` enumeration, not integers. `sys.settrace`
and `threading.settrace` become flags in the state. Each stateful operation
is a method of a class holding the module's globals. Each such method is
proved equal to a specification function over a state value, and the
lemmas are stated about those functions.

The docstrings and the code disagree in places. The model follows the code:

- `start` in `tracer/tracer.py` adds its `trace_fn` even when the function
  is already registered, although its docstring says it will not.
- `remove_hook` raises LookupError for an absent function, where the
  docstring says it returns None.
- `stop` with no event set keeps six kinds of event enabled, although its
  docstring says it removes every event (see Findings).

## Model

| member | source | states |
|---|---|---|
| Monitoring.CheckToolId | tracer/sys_monitoring.py:154-156 | an id passes exactly when it is in 0..5 (`MAX_TOOL_IDS` is 6); any other id raises naming that id |
| Monitoring.FixedList.constructor | tracer/sys_monitoring.py:99-100 | the list has the given size, with every slot holding the initial value |
| Monitoring.FixedList.Get | tracer/sys_monitoring.py:102-103 | Python indexing: defined exactly for -n <= index < n, with negative indices counting from the end |
| Monitoring.FixedList.Set | tracer/sys_monitoring.py:105-106 | writes exactly the indexed slot, using Python indexing; an index out of range changes nothing |
| Monitoring.FixedList.Index | tracer/sys_monitoring.py:114-119 | the first position holding the value; none exactly when the value is absent |
| Monitoring.Monitor.constructor | tracer/sys_monitoring.py:123-126 | `HOOKS` and `TOOL_NAME` start as six empty slots |
| Monitoring.Monitor.FindHookByName | tracer/sys_monitoring.py:166-171 | the first slot recording the name; None exactly when no slot records it |
| Monitoring.Monitor.FindHookById | tracer/sys_monitoring.py:174-181 | raises for an id outside 0..5; otherwise returns the name recorded in that slot |
| Monitoring.Monitor.Size | tracer/sys_monitoring.py:222-225 | counts the recorded names; the count is at most 6, and 0 exactly when every slot is empty |
| Monitoring.FirstFreeFrom | tracer/sys_monitoring.py:316-321 | the slot found is the lowest one that is empty both in `TOOL_NAME` and on the host; none is found only when every slot is taken |
| Monitoring.Monitor.FindFreeSlot | tracer/sys_monitoring.py:195-201 | the loop finds the same slot as the `for`/`else` search specification |
| Monitoring.Monitor.RecordName | tracer/sys_monitoring.py:342-348 | records the name in an empty slot; raises, changing nothing, when the slot holds another name |
| Monitoring.RegisterToolByNameSpec | tracer/sys_monitoring.py:276-350 | registration keeps both tables at six slots and any id it returns is in 0..5 |
| Monitoring.Monitor.RegisterToolByName | tracer/sys_monitoring.py:276-350 | return value, exception and new tables and host are those of the registration specification |
| Monitoring.Monitor.RegisterEvents | tracer/sys_monitoring.py:252-273 | raises for an id out of range; otherwise the tool's mask becomes the table's key set, each key's callback is registered, and that mask is returned |
| Monitoring.Monitor.RegisterCallbacks | tracer/sys_monitoring.py:256-272 | the loop registers the table's callbacks for the tool, overwriting earlier ones, and accumulates the table's key set as the mask |
| Monitoring.AllRegistered | tracer/sys_monitoring.py:256-272 | callbacks that agree key by key with the old ones overlaid by the table are exactly that overlay |
| Monitoring.Monitor.InstallTable | tracer/sys_monitoring.py:217-219 | stores the table in `HOOKS` and registers its events |
| Monitoring.Monitor.AddTraceCallbacks | tracer/sys_monitoring.py:184-219 | return value, exception and new state are those of the `add_trace_callbacks` specification |
| Monitoring.Monitor.FreeToolId | tracer/sys_monitoring.py:234-249 | return value, exception and new state are those of the `free_tool_id` specification |
| Monitoring.Monitor.Start | tracer/sys_monitoring.py:353-372 | without callbacks: registers the name and re-installs a stored non-empty table; with callbacks: behaves as `add_trace_callbacks` |
| Monitoring.StopMask | tracer/sys_monitoring.py:422-426 | an event is kept exactly when it has a callback and its name is not in the event set |
| Monitoring.Monitor.KeptEvents | tracer/sys_monitoring.py:422-426 | the accumulation loop computes exactly the kept mask |
| Monitoring.Monitor.Stop | tracer/sys_monitoring.py:377-430 | return value, exception and new state are those of the `stop` specification |
| MonitoringLemmas.OutOfRangeIdsAreRefused | tracer/sys_monitoring.py:297-298 | explicit-id registration and `free_tool_id` raise for any id outside 0..5 and change nothing |
| MonitoringLemmas.RegisterNewName | tracer/sys_monitoring.py:314-324 | a new name takes the lowest slot free in both tables and claims it on the host, which changes nothing else there (other ids, masks, callbacks, local masks), and `size()` grows by one; with no such slot it raises and changes nothing |
| MonitoringLemmas.RegisterWhenFull | tracer/sys_monitoring.py:314-324 | with six names recorded, registering a new name raises |
| MonitoringLemmas.ReRegisterKnownName | tracer/sys_monitoring.py:325-326 | re-registering a recorded name without an id returns its slot and writes nothing |
| MonitoringLemmas.RegisterKeepsNamesUnique | tracer/sys_monitoring.py:314-326 | registering without an id never records one name in two slots |
| MonitoringLemmas.RegisterOverForeignHostName | tracer/sys_monitoring.py:300-312 | when the host holds the id under another name: without `can_change_tool_id` registration raises and changes nothing; with it, the host slot is cleared and `use_tool_id` refuses the id |
| MonitoringLemmas.RegisterAtOwnSlot | tracer/sys_monitoring.py:342-348 | when the host slot is free or holds the same name, the outcome depends only on `TOOL_NAME[id]`, and the host is untouched |
| MonitoringLemmas.ExplicitIdCanDuplicateName | tracer/sys_monitoring.py:297-348 | registering "a" at an explicit id records it a second time, next to slot 0 |
| MonitoringLemmas.IntendedRebindTakesSlot | tracer/sys_monitoring.py:305-307 | a rebind that frees the id first makes the host hold the id under the new name and leaves the other host slots alone |
| MonitoringLemmas.FreeToolIdOutcome | tracer/sys_monitoring.py:234-249 | `free_tool_id` raises exactly for an id out of range or a host name that differs from the recorded one; otherwise it empties both slots, releases the host slot and touches no other slot |
| MonitoringLemmas.FreeTwiceIsNoOp | tracer/sys_monitoring.py:234-249 | a second `free_tool_id` of the same id succeeds and changes nothing |
| MonitoringLemmas.RegisterEventsInstalls | tracer/sys_monitoring.py:252-273 | after `register_events` the tool's mask is the table's keys and each key runs its callback; other tools' masks and callbacks are unchanged |
| MonitoringLemmas.AddTraceCallbacksOutcome | tracer/sys_monitoring.py:194-219 | returns None, changing nothing, exactly when the name is unknown and no slot is free; on success the name is found at the returned id, `HOOKS` holds the table there, and the host mask is the table's keys |
| MonitoringLemmas.AddTraceCallbacksRaises | tracer/sys_monitoring.py:213-215 | raises only when the name is recorded and the host holds that slot under the empty name |
| MonitoringLemmas.StopMaskDefault | tracer/sys_monitoring.py:412-426 | with no event set, `stop` keeps exactly the stored events whose names are missing from `ALL_EVENT_NAMES` |
| MonitoringLemmas.StopDefaultKeepsReraise | tracer/sys_monitoring.py:412-413 | with no event set, a stored RERAISE callback stays enabled |
| MonitoringLemmas.StopEveryEventNameDisablesAll | tracer/sys_monitoring.py:380-382 | with every event kind's name as the default, `stop` disables every stored event |
| MonitoringLemmas.StopUnknownName | tracer/sys_monitoring.py:409-410 | `stop` of an unrecorded name returns None and changes nothing |
| MonitoringLemmas.StopThenStart | tracer/sys_monitoring.py:364-371 | `stop` sets and returns the kept mask and leaves `HOOKS` alone; a later `start(name)` re-installs every stored event |
| Events.EventNameIsNormalised | tracer/sys_monitoring.py:135-144 | each event's name is its attribute name lower-cased, with a leading `py_` removed |
| Events.AllEventNamesCoverage | tracer/sys_monitoring.py:54-71 | `ALL_EVENT_NAMES` lists every event kind's name except those of six kinds |
| Events.NormaliseIsLowerCase | tracer/sys_monitoring.py:140-142 | a normalised name has no upper-case letter |
| Events.NormalisePrefixed | tracer/sys_monitoring.py:140-142 | a `PY_` or `py_` prefix is removed and the rest is only lower-cased |
| Events.NormaliseUnprefixed | tracer/sys_monitoring.py:140-142 | a name without the prefix is only lower-cased and keeps its length |
| Events.BuildEventTables | tracer/sys_monitoring.py:135-144 | the loop fills `event2string` and `eventname2int` with exactly what the table specifications give |
| Events.EventToStringDomain | tracer/sys_monitoring.py:135-144 | each key of `event2string` is the value of a public attribute, and maps to that attribute's normalised name |
| Events.EventTablesRoundTrip | tracer/sys_monitoring.py:135-144 | with distinct values and names the two tables are inverse to each other and hold nothing else |
| Py.SliceInsertShape | tracer/tracer.py:163-164 | slice assignment at one bound adds exactly the entry at the clamped position, with the other entries in order around it |
| Py.Delete | tracer/tracer.py:204 | `del` removes exactly the one entry and moves the later ones down |
| Py.CountSomeBounds | tracer/sys_monitoring.py:222-225 | the count of occupied slots is at most the length; it equals the length or zero exactly when all slots are full or all empty |
| TraceHooks.CheckTraceFn | tracer/tracer.py:129-137 | passes exactly a plain function taking three arguments; raises TypeError otherwise |
| TraceHooks.IntendedSpliceEnds | tracer/tracer.py:113-114 | inserting at the documented position puts the entry at the front when asked to, at the end otherwise |
| Tracer.OptionSetIsOverride | tracer/tracer.py:63-70 | an option's value is the given option overriding the default; None when neither has it |
| Tracer.CheckEventSet | tracer/tracer.py:48-52 | None and any subset of `ALL_EVENTS` pass; another set raises TypeError; a value with no `issubset` raises AttributeError |
| Tracer.FindHook | tracer/tracer.py:54-61 | the first entry running the function; None exactly when no entry runs it |
| Tracer.Splice | tracer/tracer.py:163-164 | a bool or int bound inserts at that slice position; a None bound replaces the whole list; anything else raises TypeError |
| Tracer.DispatchOrder | tracer/tracer.py:77-88 | `_tracer_func` calls the admitted entries' functions in list order, once per entry, and no other functions |
| Tracer.DispatchMembers | tracer/tracer.py:77-88 | a function is called for an event exactly when an entry running it admits the event |
| Tracer.DispatchAll | tracer/tracer.py:77-88 | with no ignored frames and no event sets, every entry runs, in order |
| Tracer.AddHookRejects | tracer/tracer.py:129-137 | anything but a plain function of three arguments raises TypeError before `HOOKS` changes |
| Tracer.AddHookSplices | tracer/tracer.py:139-167 | a valid `add_hook` with a bool or int `front` splices its entry in at that bound and returns the new length |
| Tracer.AddHookInserts | tracer/tracer.py:143-167 | a valid `add_hook` adds exactly one entry at the clamped `front` position, keeps the others in order, and returns the old length plus one |
| Tracer.AddHookDefaultPrepends | tracer/tracer.py:143 | with the default options the new entry goes to the front, with event set `ALL_EVENTS` |
| Tracer.AddHookFrontGoesSecond | tracer/tracer.py:143 | with `front` set the new entry goes second in a non-empty list |
| Tracer.RemoveHookOutcome | tracer/tracer.py:195-209 | LookupError, changing nothing, exactly when the function is absent; otherwise deletes only its first entry, returns the remaining count, and stops when asked to and the list is empty |
| Tracer.RemoveFirst | tracer/tracer.py:202-204 | `remove_hook` deletes the entry at the first position running the function |
| Tracer.AddThenRemove | tracer/tracer.py:105-209 | adding a function that is not on the list, then removing it, gives the list back |
| Tracer.StartThenStop | tracer/tracer.py:217-247 | `start()` marks tracing started and `stop()` stopped; neither touches the list, and both return its length |
| Tracer.ClearHooksAndStopEmpties | tracer/tracer.py:175-180 | afterwards there are no hooks and tracing is stopped |
| Tracer.Tracer.constructor | tracer/tracer.py:33-35 | no hooks, not started |
| Tracer.Tracer.Size | tracer/tracer.py:182-185 | the number of entries |
| Tracer.Tracer.IsStarted | tracer/tracer.py:187-193 | the started flag |
| Tracer.Tracer.AddHook | tracer/tracer.py:105-167 | return value, exception and new state are those of the `add_hook` specification |
| Tracer.Tracer.ClearHooks | tracer/tracer.py:169-173 | empties the list and changes nothing else |
| Tracer.Tracer.ClearHooksAndStop | tracer/tracer.py:175-180 | stops tracing if it was started, then empties the list |
| Tracer.Tracer.RemoveHook | tracer/tracer.py:195-209 | return value, exception and new state are those of the `remove_hook` specification |
| Tracer.Tracer.Start | tracer/tracer.py:217-239 | return value, exception and new state are those of the `start` specification |
| Tracer.Tracer.Stop | tracer/tracer.py:241-247 | marks tracing stopped and returns the number of hooks |
| Tracer.Tracer.TracerFunc | tracer/tracer.py:72-95 | the loop calls exactly the dispatch specification's functions, in order, and leaves `HOOKS` unchanged |
| LegacyTracer.CheckEventSet | tracer.py:38-42 | None and any subset of `ALL_EVENTS` pass and are stored as given; another set raises TypeError; a list, tuple or string, which has no `issubset`, raises AttributeError |
| LegacyTracer.FindHook | tracer.py:44-51 | the first entry running the function; None exactly when no entry runs it |
| LegacyTracer.Position | tracer.py:94 | `to_front and 0 or -1` is -1 whatever `to_front` is |
| LegacyTracer.DispatchOrder | tracer.py:53-64 | `_tracer_func` calls the admitted entries' functions in list order, once per entry, and no other functions |
| LegacyTracer.DispatchMembers | tracer.py:53-64 | a function is called for an event exactly when an entry running it admits the event |
| LegacyTracer.AddHookRejects | tracer.py:82-92 | `add_hook` fails, changing nothing, exactly for a non-function, a method, a wrong argument count or an event set outside `ALL_EVENTS` (TypeError), or an event set with no `issubset` (AttributeError) |
| LegacyTracer.AddHookInsertsBeforeLast | tracer.py:94-97 | a valid `add_hook` puts its entry just before the last one, or alone in an empty list, and returns the old length plus one |
| LegacyTracer.AddHookToFrontMisses | tracer.py:94-95 | with `to_front` set and two entries present, the new entry lands in the middle |
| LegacyTracer.RemoveHookOutcome | tracer.py:125-139 | LookupError, changing nothing, exactly when the function is absent; otherwise deletes only its first entry, returns the remaining count, and stops when asked to and the list is empty |
| LegacyTracer.StartDropsEventSet | tracer.py:143-147 | a hook added through `start` is stored with no event set, so it runs for every event |
| LegacyTracer.IntendedStartKeepsEventSet | tracer.py:143-147 | a `start` that passes `event_set` in its own position stores the hook with that set; when no other entry runs the function, it is called for an event exactly when the set admits it |
| LegacyTracer.StartThenStop | tracer.py:143-161 | `start()` marks tracing started and `stop()` stopped; neither touches the list, and both return its length |
| LegacyTracer.ClearHooksAndStopEmpties | tracer.py:105-110 | afterwards there are no hooks and tracing is stopped |
| LegacyTracer.Tracer.constructor | tracer.py:30-32 | no hooks, not started |
| LegacyTracer.Tracer.Size | tracer.py:112-115 | the number of entries |
| LegacyTracer.Tracer.IsStarted | tracer.py:117-123 | the started flag |
| LegacyTracer.Tracer.AddHook | tracer.py:66-97 | return value, exception and new state are those of the `add_hook` specification |
| LegacyTracer.Tracer.ClearHooks | tracer.py:99-103 | empties the list and changes nothing else |
| LegacyTracer.Tracer.ClearHooksAndStop | tracer.py:105-110 | stops tracing if it was started, then empties the list |
| LegacyTracer.Tracer.RemoveHook | tracer.py:125-139 | return value, exception and new state are those of the `remove_hook` specification |
| LegacyTracer.Tracer.Start | tracer.py:143-153 | return value, exception and new state are those of the `start` specification |
| LegacyTracer.Tracer.Stop | tracer.py:155-161 | marks tracing stopped and returns the number of hooks |
| LegacyTracer.Tracer.TracerFunc | tracer.py:53-64 | the loop calls exactly the dispatch specification's functions, in order |
| TraceFilters.ToFCode | tracer/tracefilter.py:28-34 | fails exactly when inspecting the object raises; None exactly when the object has neither `func_code` nor a code member |
| TraceFilters.AddToSet | tracer/tracefilter.py:8-16 | adds the object's code and returns True, or returns False and leaves the set alone when resolving the object raises |
| TraceFilters.CodesMembers | tracer/tracefilter.py:18-26 | a code is collected exactly when some input resolves to it; inputs that raise are skipped |
| TraceFilters.FsToSet | tracer/tracefilter.py:18-26 | the loop collects exactly the specified set of codes |
| TraceFilters.TraceFilter.constructor | tracer/tracefilter.py:40-42 | the filter holds the codes of the given functions |
| TraceFilters.TraceFilter.IsIncluded | tracer/tracefilter.py:44-50 | true exactly when the object's code is held; false when resolving it raises |
| TraceFilters.TraceFilter.ClearInclude | tracer/tracefilter.py:52-54 | the set becomes empty |
| TraceFilters.TraceFilter.AddInclude | tracer/tracefilter.py:56-62 | behaves as `add_to_set` on the filter's set |
| TraceFilters.TraceFilter.RemoveInclude | tracer/tracefilter.py:64-71 | returns True exactly when the object's code was held, and then removes just that code; otherwise returns False and changes nothing |
| TraceFilters.FilterOfList | tracer/tracefilter.py:40-50 | a filter built from a list includes exactly the objects sharing the code of a listed one |
| TraceFilters.AddIncludeMembership | tracer/tracefilter.py:56-62 | after an add, the object is included, and another object is included exactly when it was before or shares the object's code |
| TraceFilters.RemoveIncludeMembership | tracer/tracefilter.py:64-71 | after a removal the object and everything sharing its code are excluded; nothing else changes |
| TraceFilters.NoCodeAliases | tracer/tracefilter.py:28-34 | adding an object with no code inserts None, after which every other object with no code counts as included |
| TraceFilters.ClearedIncludesNothing | tracer/tracefilter.py:52-54 | a cleared filter includes nothing |
| Stepping.MasksAreNested | tracer/stepping.py:39-47 | FINISH is strictly inside STEP_OVER, which is strictly inside STEP_INTO |
| Stepping.CallOnlyStepsInto | tracer/stepping.py:39-47 | CALL is in STEP_INTO but in neither STEP_OVER nor FINISH |
| Stepping.MaskDifferences | tracer/stepping.py:43-47 | STEP_OVER adds only LINE to FINISH; STEP_INTO adds exactly CALL, PY_RESUME and PY_THROW to STEP_OVER |
| Stepping.FinishIsNotLocal | tracer/stepping.py:12-24 | FINISH holds exactly RAISE, C_RETURN and PY_UNWIND beyond `LOCAL_EVENTS` |
| Stepping.HostSetLocalEvents | tracer/stepping.py:69 | the host call needs a tool id, a code and a mask, raising TypeError otherwise; it sets that code's local mask and nothing else |
| Stepping.SettersAsWrittenRaise | tracer/stepping.py:68-74 | as written, both setters call the host without a tool id and raise TypeError |
| Stepping.SettersInstallMasks | tracer/stepping.py:68-74 | the setters with the tool id install exactly their mask for the code, leave other codes and tools alone, and finish after step over narrows the mask by LINE alone |
| Stepping.StepIntoChangesNothing | tracer/stepping.py:63-65 | `set_step_into` leaves the host unchanged |

## Left out

- Printing, debug output and the warnings `register_events` prints: these have no effect on state.
- register_events: the check that each callback is a function or method only prints, so callbacks are opaque values here.
- The order in which `register_events` walks the table is not modelled. Dict order decides only which warnings print; the resulting mask and callbacks do not depend on it.
- The host's ValueError from `set_events` and `register_callback` for an id not in use is not modelled. The modelled host accepts those calls. This matters only on the explicit-id path, which records a host-free id without claiming it.
- `is_started` in `tracer/sys_monitoring.py` has no `return`, so it always yields None and is not modelled as a predicate.
- Two branches of `tracer/sys_monitoring.py` cannot run, so they are not modelled. Lines 327-335 follow an `elif tool_id is None` that always holds there. The `else` at lines 207-211 needs a chosen slot that the host holds, and the search only picks host-free slots.
- The `free_tool_id` parameter of `stop` and the `events_set` parameter of `start` in `tracer/sys_monitoring.py` are unused, so they are not modelled. So are `CODE2EVENTS`, `CodeMasks`, `EVENT2SHORT` and the `PytraceException` message text.
- Event masks are sets, not the interpreter's bit values: bitwise OR is union, and the bit numbering is not modelled.
- The `frame.f_trace` assignments in `add_hook` and the `null_trace_hook` are not modelled. They only affect how the interpreter traces the current frame.
- The `NotImplementedError` branches of `start` and `stop` are not modelled. `sys.settrace` always returns None, so they cannot run.
- What user trace functions do when `_tracer_func` calls them is not modelled, including raising or changing `HOOKS`. `_tracer_func` always returns itself. The entry it rebinds at lines 85-86 of `tracer/tracer.py` is a local variable, so the model leaves the list unchanged.
- Tracer.StartSpec: an `add_hook_opts` option that is not a dictionary raises TypeError here. In the source, a set behaves like an empty dictionary, unless it contains one of the option names.
- Tracer.AddHookSpec: only options of the kinds `OptionValue` lists are modelled. For option values of other Python types, the exception raised follows the kind nearest to them.
- The `Trace_entry` constructor's argument-count check is not modelled, since every call passes the right number of arguments.
- `to_f_code` depends on `hasattr`, `inspect.getmembers` and `inspect.iscode`. These are modelled by the kind of object given, as the `Target` cases list them.
- The unused `continue_return_frame` parameter of `TraceFilter` is not modelled.
- Stepping.SetStepOver, Stepping.SetFinishMask: these model the intended call with the tool id, not the call as written. Any further check the interpreter makes on the mask is not modelled; the mask is installed as given.
- The monitoring, tracer and legacy tracer classes follow the code as written. The corrected definitions named under Findings stand beside them and are not wired into those classes.
- Threads are not modelled beyond the flag that `threading.settrace` sets.

## Findings

| source | as written | input that shows it | evidently intended | confidence | as-written member | corrected member |
|---|---|---|---|---|---|---|
| tracer/tracer.py:143 | the default `front` option, False, is used as the slice bound, so the entry goes to position 0 | `add_hook(f)` on a list `[g]` gives `[f, g]` | without `front` the entry goes at the end, as the docstring says | high, not executed | Tracer.AddHookDefaultPrepends | TraceHooks.IntendedSpliceEnds |
| tracer.py:94 | `to_front and 0 or -1` is -1 whether `to_front` is true or false | `add_hook(f, to_front=True)` on `[a, b]` gives `[a, f, b]` | the front when `to_front` is set, the end otherwise | high, not executed | LegacyTracer.AddHookToFrontMisses | TraceHooks.IntendedSpliceEnds |
| tracer.py:147 | `add_hook(trace_fn, to_front, event_set)` passes `event_set` as `do_start` | `start(f, False, {'line'})` stores `f` with event set None, so `f` also runs on `call` events | the hook is stored with the given event set | high, not executed | LegacyTracer.StartDropsEventSet | LegacyTracer.IntendedStartKeepsEventSet |
| tracer/sys_monitoring.py:412-413 | the default event set `ALL_EVENT_NAMES` lacks the names of six event kinds | `stop(name)` for a tool with callbacks for RERAISE and LINE leaves RERAISE enabled | with no event set, every stored event is disabled, as the docstring says | high, not executed | MonitoringLemmas.StopDefaultKeepsReraise | MonitoringLemmas.StopEveryEventNameDisablesAll |
| tracer/sys_monitoring.py:305-307 | `clear_tool_id` keeps the id in use, so the following `use_tool_id` raises ValueError | host holds id 1 as "pdb"; `register_tool_by_name("x", 1)` raises instead of rebinding | release the id, then claim it under the new name | medium, not executed | MonitoringLemmas.RegisterOverForeignHostName | MonitoringLemmas.IntendedRebindTakesSlot |
| tracer/stepping.py:68-74 | `set_local_events(STEP_OVER_EVENTS, code)` omits the tool id that the host call requires | `set_step_over(1, code)` raises TypeError | `set_local_events(tool_id, code, STEP_OVER_EVENTS)` | high, not executed | Stepping.SettersAsWrittenRaise | Stepping.SettersInstallMasks |
