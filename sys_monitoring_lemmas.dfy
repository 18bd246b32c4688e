/** What the tool-slot registry promises, proved of the operations'
    specifications in `Monitoring`. */
module MonitoringLemmas {
  import opened Py
  import opened Events
  import opened MonitoringHost
  import opened Monitoring

  /** Every id outside 0..5 is refused by `check_tool_id`, and so by every
      operation that takes an id, before anything changes. */
  lemma OutOfRangeIdsAreRefused(s: MonitorState, toolId: int, name: string, canChangeToolId: bool)
    requires WellFormed(s)
    requires !(0 <= toolId < MaxToolIds)
    ensures RegisterToolByNameSpec(s, name, Some(toolId), canChangeToolId)
            == Step(Err(ToolIdOutOfRange(toolId)), s)
    ensures FreeToolIdSpec(s, toolId) == Step(Err(ToolIdOutOfRange(toolId)), s)
  {
  }

  /** Registering a new name without an id takes the lowest slot free both
      in `TOOL_NAME` and on the host, claims it on the host and changes
      nothing else there, and grows `size()` by one; with no such slot it
      raises and changes nothing. */
  lemma {:induction false} RegisterNewName(s: MonitorState, name: string, canChangeToolId: bool)
    requires WellFormed(s) && Some(name) !in s.names
    ensures var r := RegisterToolByNameSpec(s, name, None, canChangeToolId);
      match FirstFreeFrom(s, 0)
      case None => r == Step(Err(AllToolIdsInUse), s)
      case Some(t) =>
        && r.result == Ok(t)
        && SlotFree(s, t) && (forall j :: 0 <= j < t ==> !SlotFree(s, j))
        && r.state.names == s.names[t := Some(name)] && r.state.hooks == s.hooks
        && GetTool(r.state.host, t) == Some(name)
        && r.state.host == s.host.(tools := s.host.tools[t := name])
        && CountSome(r.state.names) == CountSome(s.names) + 1
  {
    match FirstFreeFrom(s, 0)
    case None =>
    case Some(t) =>
      CountSomeUpdate(s.names, t, Some(name));
  }

  /** Once all six slots are recorded, registering another name raises. */
  lemma RegisterWhenFull(s: MonitorState, name: string, canChangeToolId: bool)
    requires WellFormed(s) && Some(name) !in s.names
    requires CountSome(s.names) == MaxToolIds
    ensures RegisterToolByNameSpec(s, name, None, canChangeToolId) == Step(Err(AllToolIdsInUse), s)
  {
    CountSomeBounds(s.names);
    assert !SlotFree(s, 0);
  }

  /** Registering a name already recorded, without an id, returns its slot
      and writes nothing. */
  lemma ReRegisterKnownName(s: MonitorState, name: string, canChangeToolId: bool)
    requires WellFormed(s) && Some(name) in s.names
    ensures RegisterToolByNameSpec(s, name, None, canChangeToolId)
            == Step(Ok(FirstIndex(s.names, Some(name)).value), s)
  {
  }

  /** Registration without an id never records one name in two slots. */
  lemma RegisterKeepsNamesUnique(s: MonitorState, name: string, canChangeToolId: bool)
    requires WellFormed(s) && UniqueNames(s.names)
    ensures UniqueNames(RegisterToolByNameSpec(s, name, None, canChangeToolId).state.names)
  {
    if Some(name) !in s.names {
      match FirstFreeFrom(s, 0)
      case None =>
      case Some(t) =>
        var names := s.names[t := Some(name)];
        forall i, j | 0 <= i < j < |names| && names[i].Some?
          ensures names[i] != names[j]
        {
          if i == t {
            assert names[j] == s.names[j];
          } else if j == t {
            assert names[i] == s.names[i];
          }
        }
    }
  }

  /** With an explicit id whose host name differs from `name`: without
      `can_change_tool_id` it raises and changes nothing; with it, the host
      slot is cleared but, since `clear_tool_id` keeps the id in use, the
      host's `use_tool_id` refuses it. */
  lemma RegisterOverForeignHostName(s: MonitorState, name: string, t: nat, canChangeToolId: bool)
    requires WellFormed(s) && t < MaxToolIds
    requires GetTool(s.host, t).Some? && GetTool(s.host, t).value != name
    ensures var r := RegisterToolByNameSpec(s, name, Some(t), canChangeToolId);
      if canChangeToolId then
        && r == Step(Err(ToolIdInUse(t)), s.(host := Cleared(s.host, t)))
        && UseTool(Cleared(s.host, t), t, name).None?
        && GetTool(r.state.host, t) == GetTool(s.host, t)
      else r == Step(Err(HostNameConflict(t, GetTool(s.host, t).value)), s)
  {
  }

  /** The rebind lines 305-307 are written for: release the host slot with
      `free_tool_id`, which, unlike `clear_tool_id`, gives the id up, then
      claim it under `name` and record it. */
  function IntendedRebind(s: MonitorState, t: nat, name: string): Step<nat>
    requires WellFormed(s) && t < MaxToolIds
  {
    Record(s.(host := UseTool(Freed(s.host, t), t, name).value), t, name)
  }

  /** The intended rebind takes the host slot over for `name`, leaves every
      other host slot as it was, and succeeds unless `TOOL_NAME` records
      another name there. */
  lemma IntendedRebindTakesSlot(s: MonitorState, t: nat, name: string, other: nat)
    requires WellFormed(s) && t < MaxToolIds && other != t
    ensures var r := IntendedRebind(s, t, name);
      && GetTool(r.state.host, t) == Some(name)
      && GetTool(r.state.host, other) == GetTool(s.host, other)
      && (r.result == Ok(t) <==> s.names[t].None? || s.names[t] == Some(name))
  {
    FreedReleases(s.host, t, other);
  }

  /** With an explicit id that the host leaves free or holds under `name`,
      the outcome depends on `TOOL_NAME[id]` alone, and the host is not
      touched: a free host slot is recorded locally but never claimed. */
  lemma RegisterAtOwnSlot(s: MonitorState, name: string, t: nat, canChangeToolId: bool)
    requires WellFormed(s) && t < MaxToolIds
    requires GetTool(s.host, t).None? || GetTool(s.host, t) == Some(name)
    ensures var r := RegisterToolByNameSpec(s, name, Some(t), canChangeToolId);
      && r.state.host == s.host && r.state.hooks == s.hooks
      && (s.names[t].None? ==> r == Step(Ok(t), s.(names := s.names[t := Some(name)])))
      && (s.names[t] == Some(name) ==> r == Step(Ok(t), s))
      && (s.names[t].Some? && s.names[t] != Some(name) ==>
            r == Step(Err(RecordedNameConflict(t, s.names[t].value)), s))
  {
  }

  /** The explicit-id path can record a name a second time: "a" held in slot
      0 is recorded again in slot 1. */
  lemma ExplicitIdCanDuplicateName()
    ensures var s := MonitorState([Some("a"), None, None, None, None, None],
                                  seq(MaxToolIds, _ => None), Initial);
            var r := RegisterToolByNameSpec(s, "a", Some(1), false);
            && UniqueNames(s.names)
            && r.result == Ok(1)
            && !UniqueNames(r.state.names)
  {
    var s := MonitorState([Some("a"), None, None, None, None, None],
                          seq(MaxToolIds, _ => None), Initial);
    var r := RegisterToolByNameSpec(s, "a", Some(1), false);
    assert r.state.names[0] == r.state.names[1] == Some("a");
  }

  /** `free_tool_id` raises exactly for an id out of range or a host name
      that differs from the recorded one (an unrecorded host-held slot
      included). Otherwise it empties both tables' slot, clears and releases
      a host-held slot, and touches no other slot. */
  lemma FreeToolIdOutcome(s: MonitorState, toolId: int)
    requires WellFormed(s)
    ensures var r := FreeToolIdSpec(s, toolId);
      && (r.result.Err? <==>
            !(0 <= toolId < MaxToolIds) ||
            (GetTool(s.host, toolId).Some? && GetTool(s.host, toolId) != s.names[toolId]))
      && (r.result.Err? ==> r.state == s)
      && (r.result.Ok? ==>
            && r.state.names[toolId].None? && r.state.hooks[toolId].None?
            && GetTool(r.state.host, toolId).None?
            && (GetTool(s.host, toolId).Some? ==> GetEvents(r.state.host, toolId) == {})
            && (GetTool(s.host, toolId).None? ==> r.state.host == s.host)
            && (forall i :: 0 <= i < MaxToolIds && i != toolId ==>
                  r.state.names[i] == s.names[i] && r.state.hooks[i] == s.hooks[i]
                  && GetTool(r.state.host, i) == GetTool(s.host, i)
                  && GetEvents(r.state.host, i) == GetEvents(s.host, i)))
  {
    if 0 <= toolId < MaxToolIds && GetTool(s.host, toolId).Some? {
      forall i | 0 <= i < MaxToolIds && i != toolId
        ensures GetTool(Freed(s.host, toolId), i) == GetTool(s.host, i)
        ensures GetEvents(Freed(s.host, toolId), i) == GetEvents(s.host, i)
      {
        FreedReleases(s.host, toolId, i);
      }
    }
  }

  /** A second `free_tool_id` of the same id is a no-op. */
  lemma FreeTwiceIsNoOp(s: MonitorState, toolId: int)
    requires WellFormed(s) && FreeToolIdSpec(s, toolId).result.Ok?
    ensures var once := FreeToolIdSpec(s, toolId).state;
            FreeToolIdSpec(once, toolId) == Step(Ok(()), once)
  {
    var once := FreeToolIdSpec(s, toolId).state;
    assert once.names[toolId := None] == once.names;
    assert once.hooks[toolId := None] == once.hooks;
  }

  /** After `register_events(t, table)` the tool's mask is the table's key
      set and each of its events runs the table's callback; other tools keep
      their masks and callbacks. */
  lemma RegisterEventsInstalls(h: HostState, t: nat, table: CallbackTable, other: nat)
    requires other != t
    ensures GetEvents(RegisterEventsSpec(h, t, table), t) == table.Keys
    ensures forall e :: e in table ==> GetCallback(RegisterEventsSpec(h, t, table), t, e) == Some(table[e])
    ensures forall e :: e !in table ==> GetCallback(RegisterEventsSpec(h, t, table), t, e) == GetCallback(h, t, e)
    ensures GetEvents(RegisterEventsSpec(h, t, table), other) == GetEvents(h, other)
    ensures forall e :: GetCallback(RegisterEventsSpec(h, t, table), other, e) == GetCallback(h, other, e)
  {
  }

  /** `add_trace_callbacks` returns None, changing nothing, exactly when the
      name is unrecorded and no slot is free; when it returns an id, the
      name is found there, `HOOKS` holds the table there, and the host
      monitors exactly the table's events for that id. */
  lemma {:induction false} AddTraceCallbacksOutcome(s: MonitorState, name: string, table: CallbackTable)
    requires WellFormed(s)
    ensures var r := AddTraceCallbacksSpec(s, name, table);
      && (r.result == Ok(None) <==> Some(name) !in s.names && FirstFreeFrom(s, 0).None?)
      && (r.result == Ok(None) ==> r.state == s)
      && (r.result.Ok? && r.result.value.Some? ==>
            var t := r.result.value.value;
            && FirstIndex(r.state.names, Some(name)) == Some(t)
            && r.state.hooks[t] == Some(table)
            && GetEvents(r.state.host, t) == table.Keys)
  {
    if Some(name) !in s.names && FirstFreeFrom(s, 0).Some? {
      FirstIndexOfWritten(s.names, FirstFreeFrom(s, 0).value, Some(name));
    }
  }

  /** An existing-name `add_trace_callbacks` raises only when the host holds
      the slot under the empty name. */
  lemma AddTraceCallbacksRaises(s: MonitorState, name: string, table: CallbackTable)
    requires WellFormed(s)
    ensures AddTraceCallbacksSpec(s, name, table).result.Err? <==>
            Some(name) in s.names && GetTool(s.host, FirstIndex(s.names, Some(name)).value) == Some("")
  {
  }

  /** The event kinds whose names `ALL_EVENT_NAMES` does not list. */
  const UnlistedKinds: set<Event> :=
    {StopIteration, ExceptionHandled, PyUnwind, PyThrow, Reraise, CRaise}

  /** `stop(name)` with no event set keeps exactly the stored events whose
      kind `ALL_EVENT_NAMES` does not list. */
  lemma StopMaskDefault(keys: set<Event>)
    ensures StopMask(keys, AllEventNames) == keys * UnlistedKinds
  {
    forall e | e in keys
      ensures e in StopMask(keys, AllEventNames) <==> e in UnlistedKinds
    {
      AllEventNamesCoverage(e);
    }
  }

  /** As written, `stop(name)` with no event set leaves a stored RERAISE
      callback enabled, although it is documented to remove every event
      found under the name. */
  lemma StopDefaultKeepsReraise()
    ensures StopMask({Reraise, Line}, AllEventNames) == {Reraise}
  {
    StopMaskDefault({Reraise, Line});
  }

  /** The default the documentation describes: the name of every event kind. */
  const EveryEventName: set<string> := set e | e in AllKinds :: EventName(e)

  /** With that default, `stop(name)` disables every stored event. */
  lemma StopEveryEventNameDisablesAll(keys: set<Event>)
    ensures StopMask(keys, EveryEventName) == {}
  {
    forall e | e in keys
      ensures EventName(e) in EveryEventName
    {
      AllKindsIsComplete(e);
    }
  }

  /** `stop` of an unrecorded name returns None and changes nothing. */
  lemma StopUnknownName(s: MonitorState, name: string, eventsSet: Option<set<string>>)
    requires WellFormed(s) && Some(name) !in s.names
    ensures StopSpec(s, name, eventsSet) == Step(Ok(None), s)
  {
  }

  /** `stop` sets and returns the stored events not named in `events_set`,
      leaves `HOOKS` alone, and a later `start(name)` re-installs every
      stored event. */
  lemma StopThenStart(s: MonitorState, name: string, eventsSet: Option<set<string>>)
    requires WellFormed(s) && Some(name) in s.names
    requires var t := FirstIndex(s.names, Some(name)).value;
             s.hooks[t].Some? && s.hooks[t].value != map[]
    ensures var t := FirstIndex(s.names, Some(name)).value;
            var table := s.hooks[t].value;
            var names := if eventsSet.Some? then eventsSet.value else AllEventNames;
            var stopped := StopSpec(s, name, eventsSet);
            var restarted := StartSpec(stopped.state, name, None, None);
            && stopped.result == Ok(Some(StopMask(table.Keys, names)))
            && GetEvents(stopped.state.host, t) == StopMask(table.Keys, names)
            && stopped.state.names == s.names && stopped.state.hooks == s.hooks
            && restarted.result == Ok(Some(t))
            && GetEvents(restarted.state.host, t) == table.Keys
  {
  }
}
