/** The tool-slot registry of `tracer/sys_monitoring.py`: two fixed tables of
    six slots (`TOOL_NAME`, `HOOKS`) kept in step with the interpreter's own
    tool ids, and the event masks installed from callback tables. */
module Monitoring {
  import opened Py
  import opened Events
  import opened MonitoringHost

  /** `MAX_TOOL_IDS`: the host offers tool ids 0 to 5. */
  const MaxToolIds: nat := 6

  /** A callback table: the callback to run for each event. Its key set is the
      event mask the tool asks for. */
  type CallbackTable = map<Event, Callback>

  /** The exceptions the registry raises. */
  datatype Failure =
    | ToolIdOutOfRange(given: int)                    // check_tool_id
    | AllToolIdsInUse                                 // no slot free in both tables
    | HostNameConflict(toolId: nat, hostName: string) // host slot held by another name
    | RecordedNameConflict(toolId: nat, recorded: string) // TOOL_NAME slot holds another name
    | HostNameMismatch(toolId: nat, hostName: string, recordedName: Option<string>) // free_tool_id
    | ToolIdInUse(toolId: nat)                        // the host's ValueError from use_tool_id
    | NoCallbackTable(toolId: nat)                    // stop on a slot whose HOOKS entry is None

  /** The registry's state: `TOOL_NAME`, `HOOKS` and the host. */
  datatype MonitorState = MonitorState(
    names: seq<Option<string>>,
    hooks: seq<Option<CallbackTable>>,
    host: HostState)

  predicate WellFormed(s: MonitorState) {
    |s.names| == MaxToolIds && |s.hooks| == MaxToolIds
  }

  /** What an operation returns or raises, and the state it leaves. */
  datatype Step<T> = Step(result: Result<T, Failure>, state: MonitorState)

  /** `check_tool_id`: an id outside 0..5 raises. */
  function CheckToolId(toolId: int): (r: Result<nat, Failure>)
    ensures r.Ok? <==> 0 <= toolId < MaxToolIds
    ensures r.Ok? ==> r.value == toolId
    ensures r.Err? ==> r.error == ToolIdOutOfRange(toolId)
  {
    if 0 <= toolId < MaxToolIds then Ok(toolId) else Err(ToolIdOutOfRange(toolId))
  }

  /** Slot `i` is empty both in `TOOL_NAME` and on the host. */
  predicate SlotFree(s: MonitorState, i: nat)
    requires i < |s.names|
  {
    s.names[i].None? && GetTool(s.host, i).None?
  }

  /** The `for ... else` search for a free slot, from slot `i` on. */
  function FirstFreeFrom(s: MonitorState, i: nat): (r: Option<nat>)
    requires i <= |s.names|
    decreases |s.names| - i
    ensures r.Some? ==> i <= r.value < |s.names| && SlotFree(s, r.value)
    ensures r.Some? ==> forall j :: i <= j < r.value ==> !SlotFree(s, j)
    ensures r.None? ==> forall j :: i <= j < |s.names| ==> !SlotFree(s, j)
  {
    if i == |s.names| then None
    else if SlotFree(s, i) then Some(i)
    else FirstFreeFrom(s, i + 1)
  }

  /** No name is recorded in two slots. */
  predicate UniqueNames(names: seq<Option<string>>) {
    forall i, j :: 0 <= i < j < |names| && names[i].Some? ==> names[i] != names[j]
  }

  /** Lines 342-348: record `name` in slot `t` unless the slot holds another. */
  function Record(s: MonitorState, t: nat, name: string): Step<nat>
    requires t < |s.names|
  {
    if s.names[t].None? then Step(Ok(t), s.(names := s.names[t := Some(name)]))
    else if s.names[t] != Some(name) then Step(Err(RecordedNameConflict(t, s.names[t].value)), s)
    else Step(Ok(t), s)
  }

  /** `register_tool_by_name(name, tool_id, can_change_tool_id)`. */
  function RegisterToolByNameSpec(s: MonitorState, name: string, toolId: Option<int>,
                                  canChangeToolId: bool): (r: Step<nat>)
    requires WellFormed(s)
    ensures WellFormed(r.state)
    ensures r.result.Ok? ==> r.result.value < MaxToolIds
  {
    if toolId.Some? then
      match CheckToolId(toolId.value)
      case Err(e) => Step(Err(e), s)
      case Ok(t) =>
        var registered := GetTool(s.host, t);
        if registered.Some? && registered.value != name then
          // clear_tool_id keeps the id in use, so use_tool_id raises
          if canChangeToolId then Step(Err(ToolIdInUse(t)), s.(host := Cleared(s.host, t)))
          else Step(Err(HostNameConflict(t, registered.value)), s)
        else Record(s, t, name)
    else
      match FirstIndex(s.names, Some(name))
      case Some(t) => Record(s, t, name)
      case None =>
        match FirstFreeFrom(s, 0)
        case None => Step(Err(AllToolIdsInUse), s)
        case Some(t) =>
          Record(MonitorState(s.names[t := Some(name)], s.hooks,
                              UseTool(s.host, t, name).value), t, name)
  }

  /** A callback table as host entries of tool `t`. */
  function ForTool(t: nat, table: CallbackTable): (r: map<(nat, Event), Callback>)
    ensures forall k :: k in r <==> k.0 == t && k.1 in table
    ensures forall k :: k in r ==> r[k] == table[k.1]
  {
    map e | e in table :: (t, e) := table[e]
  }

  /** Host entries that agree, key by key, with `base` overlaid by the
      table's entries for tool `t` are that overlay. */
  lemma AllRegistered(base: map<(nat, Event), Callback>, t: nat, table: CallbackTable,
                      keys: set<Event>, registered: map<(nat, Event), Callback>)
    requires keys == table.Keys
    requires forall k :: k in registered <==> k in base || (k.0 == t && k.1 in keys)
    requires forall k :: k in registered ==>
               registered[k] == if k.0 == t && k.1 in keys then table[k.1] else base[k]
    ensures registered == base + ForTool(t, table)
  {
  }

  /** The host after `register_events(t, table)`: the tool has the table's
      callbacks, and its mask is the table's key set. */
  function RegisterEventsSpec(h: HostState, t: nat, table: CallbackTable): HostState {
    h.(events := h.events[t := table.Keys], callbacks := h.callbacks + ForTool(t, table))
  }

  /** Lines 217-219: store the table in `HOOKS` and register its events. */
  function Install(s: MonitorState, t: nat, table: CallbackTable): Step<Option<nat>>
    requires t < |s.hooks|
  {
    Step(Ok(Some(t)), s.(hooks := s.hooks[t := Some(table)],
                         host := RegisterEventsSpec(s.host, t, table)))
  }

  /** Python truthiness of `get_tool(id)`: a name that is not empty. */
  predicate HostNameTruthy(name: Option<string>) {
    name.Some? && name.value != ""
  }

  /** `add_trace_callbacks(name, table)`; `Ok(None)` is the printed "all hooks
      are in use" return. */
  function AddTraceCallbacksSpec(s: MonitorState, name: string, table: CallbackTable): (r: Step<Option<nat>>)
    requires WellFormed(s)
    ensures WellFormed(r.state)
    ensures r.result.Ok? && r.result.value.Some? ==> r.result.value.value < MaxToolIds
  {
    match FirstIndex(s.names, Some(name))
    case None =>
      (match FirstFreeFrom(s, 0)
       case None => Step(Ok(None), s)
       case Some(t) =>
         Install(MonitorState(s.names[t := Some(name)], s.hooks,
                              UseTool(s.host, t, name).value), t, table))
    case Some(t) =>
      if HostNameTruthy(GetTool(s.host, t)) then Install(s, t, table)
      else
        match UseTool(s.host, t, name)
        case None => Step(Err(ToolIdInUse(t)), s)
        case Some(h) => Install(s.(host := h), t, table)
  }

  /** `free_tool_id(tool_id)`. */
  function FreeToolIdSpec(s: MonitorState, toolId: int): (r: Step<()>)
    requires WellFormed(s)
    ensures WellFormed(r.state)
  {
    match CheckToolId(toolId)
    case Err(e) => Step(Err(e), s)
    case Ok(t) =>
      var hostName := GetTool(s.host, t);
      if hostName.Some? && hostName != s.names[t] then
        Step(Err(HostNameMismatch(t, hostName.value, s.names[t])), s)
      else
        Step(Ok(()), MonitorState(s.names[t := None], s.hooks[t := None],
                                  if hostName.Some? then Freed(s.host, t) else s.host))
  }

  /** `start(name, trace_callbacks, tool_id)`: without callbacks, register the
      name and re-install a stored non-empty table; with them, add them. */
  function StartSpec(s: MonitorState, name: string, table: Option<CallbackTable>,
                     toolId: Option<int>): (r: Step<Option<nat>>)
    requires WellFormed(s)
    ensures WellFormed(r.state)
  {
    if table.None? then
      var reg := RegisterToolByNameSpec(s, name, toolId, true);
      match reg.result
      case Err(e) => Step(Err(e), reg.state)
      case Ok(t) =>
        var stored := reg.state.hooks[t];
        if stored.Some? && stored.value != map[] then
          Step(Ok(Some(t)), reg.state.(host := RegisterEventsSpec(reg.state.host, t, stored.value)))
        else Step(Ok(Some(t)), reg.state)
    else AddTraceCallbacksSpec(s, name, table.value)
  }

  /** The mask `stop` keeps: the table's events whose name is not listed. */
  function StopMask(keys: set<Event>, names: set<string>): (r: set<Event>)
    ensures forall e :: e in r <==> e in keys && EventName(e) !in names
  {
    set e | e in keys && EventName(e) !in names
  }

  /** `stop(name, events_set)`; `Ok(None)` is the return for an unknown name. */
  function StopSpec(s: MonitorState, name: string, eventsSet: Option<set<string>>): (r: Step<Option<set<Event>>>)
    requires WellFormed(s)
    ensures WellFormed(r.state)
  {
    match FirstIndex(s.names, Some(name))
    case None => Step(Ok(None), s)
    case Some(t) =>
      var names := if eventsSet.Some? then eventsSet.value else AllEventNames;
      match s.hooks[t]
      case None => Step(Err(NoCallbackTable(t)), s)
      case Some(table) =>
        var mask := StopMask(table.Keys, names);
        Step(Ok(Some(mask)), s.(host := s.host.(events := s.host.events[t := mask])))
  }

  /** `FixedList`: a Python list whose length never changes. */
  class FixedList<T(==)> {
    const data: array<T>

    constructor (initialValue: T, size: nat)
      ensures fresh(data) && data.Length == size
      ensures forall i :: 0 <= i < size ==> data[i] == initialValue
    {
      data := new T[size](_ => initialValue);
    }

    /** `__getitem__`: Python indexing, negative indices counting from the
        end; None where Python raises IndexError. */
    function Get(index: int): (r: Option<T>)
      reads data
      ensures r.Some? <==> -data.Length <= index < data.Length
      ensures r.Some? ==> r.value == data[if index < 0 then index + data.Length else index]
    {
      match PyIndex(index, data.Length)
      case None => None
      case Some(k) => Some(data[k])
    }

    /** `__setitem__`: false where Python raises IndexError. */
    method Set(index: int, value: T) returns (ok: bool)
      modifies data
      ensures ok <==> -data.Length <= index < data.Length
      ensures data[..] == if ok then old(data[..])[(if index < 0 then index + data.Length else index) := value]
                          else old(data[..])
    {
      var k := PyIndex(index, data.Length);
      ok := k.Some?;
      if ok {
        data[k.value] := value;
      }
    }

    /** `index(value)`: the first position holding `value`; None where Python
        raises ValueError. */
    function Index(value: T): (r: Option<nat>)
      reads data
      ensures r.Some? ==> r.value < data.Length && data[r.value] == value && value !in data[..r.value]
      ensures r.None? <==> value !in data[..]
    {
      FirstIndex(data[..], value)
    }
  }

  /** The module-level registry: `TOOL_NAME`, `HOOKS` and the host. */
  class Monitor {
    const toolName: FixedList<Option<string>>
    const hooks: FixedList<Option<CallbackTable>>
    const host: Host

    ghost predicate Valid() {
      toolName.data.Length == MaxToolIds && hooks.data.Length == MaxToolIds
    }

    /** `TOOL_NAME` as a sequence. */
    function Names(): seq<Option<string>>
      reads toolName.data
    {
      toolName.data[..]
    }

    function State(): MonitorState
      reads toolName.data, hooks.data, host
    {
      MonitorState(Names(), hooks.data[..], host.Value())
    }

    /** Both tables start with six empty slots. */
    constructor (host: Host)
      ensures Valid() && this.host == host && fresh(toolName.data) && fresh(hooks.data)
      ensures State() == MonitorState(seq(MaxToolIds, _ => None), seq(MaxToolIds, _ => None), host.Value())
    {
      toolName := new FixedList(None, MaxToolIds);
      hooks := new FixedList(None, MaxToolIds);
      this.host := host;
    }

    /** `find_hook_by_name`: the first slot recording `name`. */
    function FindHookByName(name: string): (r: Option<nat>)
      reads toolName.data
      ensures r.Some? ==> r.value < |Names()| && Names()[r.value] == Some(name)
      ensures r.Some? ==> Some(name) !in Names()[..r.value]
      ensures r.None? <==> Some(name) !in Names()
    {
      toolName.Index(Some(name))
    }

    /** `find_hook_by_id`: the name recorded in a slot, after the range check. */
    function FindHookById(toolId: int): (r: Result<Option<string>, Failure>)
      requires Valid()
      reads toolName.data
      ensures r.Ok? <==> 0 <= toolId < MaxToolIds
      ensures r.Ok? ==> r.value == Names()[toolId]
      ensures r.Err? ==> r.error == ToolIdOutOfRange(toolId)
    {
      match CheckToolId(toolId)
      case Err(e) => Err(e)
      case Ok(t) => Ok(toolName.Get(t).value)
    }

    /** `size`: the number of recorded names, at most six; zero exactly when
        every slot is empty. */
    function Size(): (r: nat)
      requires Valid()
      reads toolName.data
      ensures r <= MaxToolIds
      ensures r == 0 <==> forall i :: 0 <= i < MaxToolIds ==> Names()[i].None?
      ensures r == CountSome(Names())
    {
      var names := Names();
      CountSomeBounds(names);
      CountSome(names)
    }

    /** The slot search of lines 195-201 and 316-321. */
    method FindFreeSlot() returns (r: Option<nat>)
      requires Valid()
      ensures r == FirstFreeFrom(State(), 0)
    {
      var i := 0;
      while i < MaxToolIds
        invariant 0 <= i <= MaxToolIds
        invariant forall j :: 0 <= j < i ==> !SlotFree(State(), j)
      {
        if toolName.data[i].None? && GetTool(host.Value(), i).None? {
          assert SlotFree(State(), i);
          return Some(i);
        }
        i := i + 1;
      }
      return None;
    }

    /** Lines 342-350. */
    method RecordName(t: nat, name: string) returns (r: Result<nat, Failure>)
      requires Valid() && t < MaxToolIds
      modifies toolName.data
      ensures Step(r, State()) == Record(old(State()), t, name)
    {
      var recorded := toolName.Get(t).value;
      if recorded.None? {
        var _ := toolName.Set(t, Some(name));
        r := Ok(t);
      } else if recorded != Some(name) {
        r := Err(RecordedNameConflict(t, recorded.value));
      } else {
        r := Ok(t);
      }
    }

    method RegisterToolByName(name: string, toolId: Option<int>, canChangeToolId: bool)
      returns (r: Result<nat, Failure>)
      requires Valid()
      modifies toolName.data, host
      ensures Step(r, State()) == RegisterToolByNameSpec(old(State()), name, toolId, canChangeToolId)
    {
      var t: nat;
      if toolId.Some? {
        var checked := CheckToolId(toolId.value);
        if checked.Err? {
          return Err(checked.error);
        }
        t := checked.value;
        var registered := GetTool(host.Value(), t);
        if registered.Some? && registered.value != name {
          if canChangeToolId {
            host.ClearToolId(t);
            var ok := host.UseToolId(t, name);
            assert !ok;
            return Err(ToolIdInUse(t));
          } else {
            return Err(HostNameConflict(t, registered.value));
          }
        }
      } else {
        var registeredId := FindHookByName(name);
        if registeredId.None? {
          var free := FindFreeSlot();
          if free.None? {
            return Err(AllToolIdsInUse);
          }
          t := free.value;
          var _ := toolName.Set(t, Some(name));
          var ok := host.UseToolId(t, name);
        } else {
          t := registeredId.value;
        }
      }
      r := RecordName(t, name);
    }

    /** `register_events(tool_id, table)`: clear the tool's mask, register
        every callback, then set the mask to the OR of the table's events. */
    method RegisterEvents(toolId: int, table: CallbackTable) returns (r: Result<set<Event>, Failure>)
      modifies host
      ensures r == (match CheckToolId(toolId) case Ok(_) => Ok(table.Keys) case Err(e) => Err(e))
      ensures host.Value() == if r.Ok? then RegisterEventsSpec(old(host.Value()), toolId, table)
                              else old(host.Value())
    {
      var checked := CheckToolId(toolId);
      if checked.Err? {
        return Err(checked.error);
      }
      var t := checked.value;
      ghost var h0 := host.Value();
      host.SetEvents(t, {});
      var events := RegisterCallbacks(t, table);
      host.SetEvents(t, events);
      assert h0.events[t := {}][t := events] == h0.events[t := table.Keys];
      assert host.Value() == HostState(h0.tools, h0.events[t := table.Keys],
                                       h0.callbacks + ForTool(t, table), h0.localEvents);
      r := Ok(events);
    }

    /** The loop of lines 256-271: register each callback of the table and
        accumulate the OR of its events. */
    method RegisterCallbacks(t: nat, table: CallbackTable) returns (events: set<Event>)
      modifies host
      ensures events == table.Keys
      ensures host.Value() == old(host.Value()).(callbacks := old(host.callbacks) + ForTool(t, table))
    {
      ghost var base := host.callbacks;
      ghost var registered := base;
      events := {};
      var remaining := table.Keys;
      while remaining != {}
        invariant remaining <= table.Keys
        invariant events == table.Keys - remaining
        invariant host.Value() == old(host.Value()).(callbacks := registered)
        invariant forall k :: k in registered <==> k in base || (k.0 == t && k.1 in events)
        invariant forall k :: k in registered ==>
                    registered[k] == if k.0 == t && k.1 in events then table[k.1] else base[k]
        decreases |remaining|
      {
        var e :| e in remaining;
        events := events + {e};
        var previous := host.RegisterCallback(t, e, table[e]);
        registered := registered[(t, e) := table[e]];
        remaining := remaining - {e};
      }
      assert events == table.Keys;
      AllRegistered(base, t, table, events, registered);
    }

    method InstallTable(t: nat, table: CallbackTable) returns (r: Option<nat>)
      requires Valid() && t < MaxToolIds
      modifies hooks.data, host
      ensures Step(Ok(r), State()) == Install(old(State()), t, table)
    {
      var _ := hooks.Set(t, Some(table));
      var _ := RegisterEvents(t, table);
      r := Some(t);
    }

    method AddTraceCallbacks(name: string, table: CallbackTable) returns (r: Result<Option<nat>, Failure>)
      requires Valid()
      modifies toolName.data, hooks.data, host
      ensures Step(r, State()) == AddTraceCallbacksSpec(old(State()), name, table)
    {
      var found := FindHookByName(name);
      var t: nat;
      if found.None? {
        var free := FindFreeSlot();
        if free.None? {
          return Ok(None);
        }
        t := free.value;
        var _ := toolName.Set(t, Some(name));
        var ok := host.UseToolId(t, name);
      } else {
        t := found.value;
        if !HostNameTruthy(GetTool(host.Value(), t)) {
          var ok := host.UseToolId(t, name);
          if !ok {
            return Err(ToolIdInUse(t));
          }
        }
      }
      var installed := InstallTable(t, table);
      r := Ok(installed);
    }

    method FreeToolId(toolId: int) returns (r: Result<(), Failure>)
      requires Valid()
      modifies toolName.data, hooks.data, host
      ensures Step(r, State()) == FreeToolIdSpec(old(State()), toolId)
    {
      var checked := CheckToolId(toolId);
      if checked.Err? {
        return Err(checked.error);
      }
      var t := checked.value;
      var hostName := GetTool(host.Value(), t);
      if hostName.Some? {
        var recorded := toolName.Get(t).value;
        if hostName != recorded {
          return Err(HostNameMismatch(t, hostName.value, recorded));
        }
        host.FreeToolId(t);
      }
      var _ := hooks.Set(t, None);
      var _ := toolName.Set(t, None);
      r := Ok(());
    }

    method Start(name: string, table: Option<CallbackTable>, toolId: Option<int>)
      returns (r: Result<Option<nat>, Failure>)
      requires Valid()
      modifies toolName.data, hooks.data, host
      ensures Step(r, State()) == StartSpec(old(State()), name, table, toolId)
    {
      if table.None? {
        var registered := RegisterToolByName(name, toolId, true);
        if registered.Err? {
          return Err(registered.error);
        }
        var t := registered.value;
        var stored := hooks.Get(t).value;
        if stored.Some? && stored.value != map[] {
          var _ := RegisterEvents(t, stored.value);
        }
        return Ok(Some(t));
      }
      r := AddTraceCallbacks(name, table.value);
    }

    /** The loop of lines 424-426: the events of the table whose name is not
        in `names`. */
    method KeptEvents(keys: set<Event>, names: set<string>) returns (mask: set<Event>)
      ensures mask == StopMask(keys, names)
    {
      mask := {};
      var remaining := keys;
      while remaining != {}
        invariant remaining <= keys
        invariant forall e :: e in mask <==> e in keys && e !in remaining && EventName(e) !in names
        decreases |remaining|
      {
        var e :| e in remaining;
        if EventName(e) !in names {
          mask := mask + {e};
        }
        remaining := remaining - {e};
      }
    }

    /** `stop(name, events_set)`: keep, of the stored table's events, those
        whose name is not in `events_set`. */
    method Stop(name: string, eventsSet: Option<set<string>>) returns (r: Result<Option<set<Event>>, Failure>)
      requires Valid()
      modifies host
      ensures Step(r, State()) == StopSpec(old(State()), name, eventsSet)
    {
      var found := FindHookByName(name);
      if found.None? {
        return Ok(None);
      }
      var t := found.value;
      var names := if eventsSet.Some? then eventsSet.value else AllEventNames;
      var stored := hooks.Get(t).value;
      if stored.None? {
        return Err(NoCallbackTable(t));
      }
      var mask := KeptEvents(stored.value.Keys, names);
      host.SetEvents(t, mask);
      r := Ok(Some(mask));
    }
  }
}
