/** The part of the interpreter's `sys.monitoring` that the tracer drives,
    as abstract state: which tool owns each id, each tool's global event
    mask, its callbacks, and its per-code local masks. */
module MonitoringHost {
  import opened Py
  import opened Events

  /** A callback function handed to `register_callback`, by identity. */
  datatype Callback = Callback(id: nat)

  /** A snapshot of the host: tool id to tool name, tool id to global event
      mask, (tool id, event) to callback, and (tool id, code) to the local
      event mask of that code. */
  datatype HostState = HostState(
    tools: map<nat, string>,
    events: map<nat, set<Event>>,
    callbacks: map<(nat, Event), Callback>,
    localEvents: map<(nat, Code), set<Event>>)

  /** No tool in use, nothing monitored. */
  const Initial := HostState(map[], map[], map[], map[])

  /** `get_local_events(id, code)`: the events monitored for `code` alone. */
  function GetLocalEvents(h: HostState, id: nat, code: Code): set<Event> {
    if (id, code) in h.localEvents then h.localEvents[(id, code)] else {}
  }

  /** `get_tool(id)`: the name the id is in use under, or None. */
  function GetTool(h: HostState, id: nat): Option<string> {
    if id in h.tools then Some(h.tools[id]) else None
  }

  /** `get_events(id)`: the tool's global mask, empty when never set. */
  function GetEvents(h: HostState, id: nat): set<Event> {
    if id in h.events then h.events[id] else {}
  }

  /** The callback a tool has registered for an event. */
  function GetCallback(h: HostState, id: nat, event: Event): Option<Callback> {
    if (id, event) in h.callbacks then Some(h.callbacks[(id, event)]) else None
  }

  /** The entries of a map keyed by tool id that belong to other tools. */
  function WithoutTool<K(==,!new), V>(m: map<(nat, K), V>, id: nat): (r: map<(nat, K), V>)
    ensures forall k :: k in r <==> k in m && k.0 != id
    ensures forall k :: k in r ==> r[k] == m[k]
  {
    map k | k in m && k.0 != id :: m[k]
  }

  /** `use_tool_id(id, name)`: None where the host raises ValueError because
      the id is already in use. */
  function UseTool(h: HostState, id: nat, name: string): (r: Option<HostState>)
    ensures r.Some? <==> id !in h.tools
    ensures r.Some? ==> GetTool(r.value, id) == Some(name)
    ensures r.Some? ==> forall other :: other != id ==> GetTool(r.value, other) == GetTool(h, other)
    ensures r.Some? ==> r.value.events == h.events && r.value.callbacks == h.callbacks
                        && r.value.localEvents == h.localEvents
  {
    if id in h.tools then None else Some(h.(tools := h.tools[id := name]))
  }

  /** `clear_tool_id(id)`: the tool keeps its id but loses every event and
      callback. */
  function Cleared(h: HostState, id: nat): HostState {
    h.(events := h.events - {id}, callbacks := WithoutTool(h.callbacks, id),
       localEvents := WithoutTool(h.localEvents, id))
  }

  /** `free_tool_id(id)`: cleared, then released. */
  function Freed(h: HostState, id: nat): HostState {
    Cleared(h, id).(tools := h.tools - {id})
  }

  /** A freed id is unused and unmonitored, and every other tool keeps its
      name, mask and callbacks. */
  lemma FreedReleases(h: HostState, id: nat, other: nat)
    requires other != id
    ensures GetTool(Freed(h, id), id).None?
    ensures GetEvents(Freed(h, id), id) == {}
    ensures forall e :: GetCallback(Freed(h, id), id, e).None?
    ensures GetTool(Freed(h, id), other) == GetTool(h, other)
    ensures GetEvents(Freed(h, id), other) == GetEvents(h, other)
    ensures forall e :: GetCallback(Freed(h, id), other, e) == GetCallback(h, other, e)
  {
  }

  /** The host as the object the tracer calls into. */
  class Host {
    var tools: map<nat, string>
    var events: map<nat, set<Event>>
    var callbacks: map<(nat, Event), Callback>
    var localEvents: map<(nat, Code), set<Event>>

    function Value(): HostState
      reads this
    {
      HostState(tools, events, callbacks, localEvents)
    }

    constructor ()
      ensures Value() == Initial
    {
      tools, events, callbacks, localEvents := map[], map[], map[], map[];
    }

    method UseToolId(id: nat, name: string) returns (ok: bool)
      modifies this
      ensures ok == UseTool(old(Value()), id, name).Some?
      ensures Value() == if ok then UseTool(old(Value()), id, name).value else old(Value())
    {
      ok := id !in tools;
      if ok {
        tools := tools[id := name];
      }
    }

    method ClearToolId(id: nat)
      modifies this
      ensures Value() == Cleared(old(Value()), id)
    {
      events := events - {id};
      callbacks := WithoutTool(callbacks, id);
      localEvents := WithoutTool(localEvents, id);
    }

    method FreeToolId(id: nat)
      modifies this
      ensures Value() == Freed(old(Value()), id)
    {
      ClearToolId(id);
      tools := tools - {id};
    }

    method SetEvents(id: nat, mask: set<Event>)
      modifies this
      ensures Value() == old(Value()).(events := old(events)[id := mask])
    {
      events := events[id := mask];
    }

    /** `register_callback(id, event, f)`: installs `f` and returns the
        callback it replaces. */
    method RegisterCallback(id: nat, event: Event, f: Callback) returns (previous: Option<Callback>)
      modifies this
      ensures previous == GetCallback(old(Value()), id, event)
      ensures Value() == old(Value()).(callbacks := old(callbacks)[(id, event) := f])
    {
      previous := GetCallback(Value(), id, event);
      callbacks := callbacks[(id, event) := f];
    }

    method SetLocalEvents(id: nat, code: Code, mask: set<Event>)
      modifies this
      ensures Value() == old(Value()).(localEvents := old(localEvents)[(id, code) := mask])
    {
      localEvents := localEvents[(id, code) := mask];
    }
  }
}
