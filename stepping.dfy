/** The stepping masks of `tracer/stepping.py` and the setters that install
    them as local events of one code object. */
module Stepping {
  import opened Py
  import opened Events
  import opened MonitoringHost
  import opened TraceHooks

  /** `LOCAL_EVENTS`. */
  const LocalEvents: set<Event> :=
    {PyStart, PyResume, PyReturn, PyYield, Call, Line, Instruction, Jump,
     BranchLeft, BranchRight, StopIteration}

  /** `FINISH_EVENTS`: stop on leaving the function. */
  const FinishEvents: set<Event> := {PyYield, PyReturn, Raise, CReturn, PyUnwind}

  /** `STEP_OVER_EVENTS`: stop on the next line or on leaving. */
  const StepOverEvents: set<Event> := {Line} + FinishEvents

  /** `STEP_INTO_EVENTS`: also stop on entering a call. */
  const StepIntoEvents: set<Event> := StepOverEvents + {Call, PyResume, PyThrow}

  /** Each mask stops on everything the one before it does. */
  lemma MasksAreNested()
    ensures FinishEvents <= StepOverEvents <= StepIntoEvents
    ensures FinishEvents != StepOverEvents && StepOverEvents != StepIntoEvents
  {
    assert Line !in FinishEvents;
    assert Call !in StepOverEvents;
  }

  /** Only stepping into stops at a call. */
  lemma CallOnlyStepsInto()
    ensures Call in StepIntoEvents && Call !in StepOverEvents && Call !in FinishEvents
  {
  }

  /** Stepping over differs from finishing by the LINE event alone, and
      stepping into adds CALL, PY_RESUME and PY_THROW to stepping over. */
  lemma MaskDifferences()
    ensures StepOverEvents - FinishEvents == {Line}
    ensures StepIntoEvents - StepOverEvents == {Call, PyResume, PyThrow}
  {
  }

  /** FINISH_EVENTS holds three kinds that are not local events. */
  lemma FinishIsNotLocal()
    ensures FinishEvents - LocalEvents == {Raise, CReturn, PyUnwind}
    ensures !(FinishEvents <= LocalEvents) && !(StepIntoEvents <= LocalEvents)
  {
    assert Raise in FinishEvents - LocalEvents;
  }

  /** An argument handed to the host's `set_local_events`. */
  datatype Arg = ToolIdArg(id: nat) | CodeArg(code: Code) | MaskArg(mask: set<Event>)

  /** The host's `set_local_events(tool_id, code, event_set)`: three
      arguments of those kinds, else TypeError. */
  function HostSetLocalEvents(h: HostState, args: seq<Arg>): (r: Result<HostState, PyError>)
    ensures r.Ok? <==> |args| == 3 && args[0].ToolIdArg? && args[1].CodeArg? && args[2].MaskArg?
    ensures r.Ok? ==> GetLocalEvents(r.value, args[0].id, args[1].code) == args[2].mask
    ensures r.Ok? ==> forall id: nat, code: Code :: (id, code) != (args[0].id, args[1].code) ==>
              GetLocalEvents(r.value, id, code) == GetLocalEvents(h, id, code)
    ensures r.Ok? ==> r.value.tools == h.tools && r.value.events == h.events && r.value.callbacks == h.callbacks
  {
    if |args| == 3 && args[0].ToolIdArg? && args[1].CodeArg? && args[2].MaskArg? then
      Ok(h.(localEvents := h.localEvents[(args[0].id, args[1].code) := args[2].mask]))
    else Err(TypeError)
  }

  /** `set_step_into(tool_id)`: does nothing. */
  function SetStepInto(h: HostState, toolId: nat): HostState {
    h
  }

  /** `set_step_over(tool_id, code)` as written: the host call gets the mask
      and the code but no tool id. */
  function SetStepOverAsWritten(h: HostState, toolId: nat, code: Code): Result<HostState, PyError> {
    HostSetLocalEvents(h, [MaskArg(StepOverEvents), CodeArg(code)])
  }

  /** `set_finish_mask(tool_id, code)` as written. */
  function SetFinishMaskAsWritten(h: HostState, toolId: nat, code: Code): Result<HostState, PyError> {
    HostSetLocalEvents(h, [MaskArg(FinishEvents), CodeArg(code)])
  }

  /** As written, both setters raise TypeError whatever the tool and code. */
  lemma SettersAsWrittenRaise(h: HostState, toolId: nat, code: Code)
    ensures SetStepOverAsWritten(h, toolId, code) == Err(TypeError)
    ensures SetFinishMaskAsWritten(h, toolId, code) == Err(TypeError)
  {
  }

  /** `set_step_over(tool_id, code)` as intended: install STEP_OVER_EVENTS
      for `code` under `tool_id`. */
  function SetStepOver(h: HostState, toolId: nat, code: Code): Result<HostState, PyError> {
    HostSetLocalEvents(h, [ToolIdArg(toolId), CodeArg(code), MaskArg(StepOverEvents)])
  }

  /** `set_finish_mask(tool_id, code)` as intended. */
  function SetFinishMask(h: HostState, toolId: nat, code: Code): Result<HostState, PyError> {
    HostSetLocalEvents(h, [ToolIdArg(toolId), CodeArg(code), MaskArg(FinishEvents)])
  }

  /** The intended setters install exactly their mask for the code under
      the tool, leave every other code and tool alone, and a finish after a
      step over narrows the code's mask by LINE alone. */
  lemma SettersInstallMasks(h: HostState, toolId: nat, code: Code)
    ensures SetStepOver(h, toolId, code).Ok? && SetFinishMask(h, toolId, code).Ok?
    ensures GetLocalEvents(SetStepOver(h, toolId, code).value, toolId, code) == StepOverEvents
    ensures GetLocalEvents(SetFinishMask(h, toolId, code).value, toolId, code) == FinishEvents
    ensures forall id: nat, c: Code :: (id, c) != (toolId, code) ==>
              GetLocalEvents(SetStepOver(h, toolId, code).value, id, c) == GetLocalEvents(h, id, c)
              && GetLocalEvents(SetFinishMask(h, toolId, code).value, id, c) == GetLocalEvents(h, id, c)
    ensures var over := SetStepOver(h, toolId, code).value;
            GetLocalEvents(over, toolId, code) - GetLocalEvents(SetFinishMask(over, toolId, code).value, toolId, code) == {Line}
  {
    MaskDifferences();
  }

  /** `set_step_into` leaves the host as it is. */
  lemma StepIntoChangesNothing(h: HostState, toolId: nat)
    ensures SetStepInto(h, toolId) == h
  {
  }
}
