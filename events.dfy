/** The sys.monitoring event kinds, their attribute names, and the name
    normalisation that turns `PY_START` into `start`. */
module Events {

  /** Every event of `sys.monitoring.events`. `NO_EVENTS`, the empty mask, is
      not an event; masks are sets of these. */
  datatype Event =
    | PyStart | PyResume | PyReturn | PyYield | Call | Line | Instruction | Jump
    | BranchLeft | BranchRight | StopIteration | Raise | ExceptionHandled
    | PyUnwind | PyThrow | Reraise | CReturn | CRaise | Branch

  /** All event kinds, as a finite set. */
  const AllKinds: set<Event> :=
    {PyStart, PyResume, PyReturn, PyYield, Call, Line, Instruction, Jump,
     BranchLeft, BranchRight, StopIteration, Raise, ExceptionHandled,
     PyUnwind, PyThrow, Reraise, CReturn, CRaise, Branch}

  lemma AllKindsIsComplete(e: Event)
    ensures e in AllKinds
  {
  }

  /** The attribute through which `sys.monitoring.events` names the event. */
  function AttrName(e: Event): string {
    match e
    case PyStart => "PY_START"
    case PyResume => "PY_RESUME"
    case PyReturn => "PY_RETURN"
    case PyYield => "PY_YIELD"
    case Call => "CALL"
    case Line => "LINE"
    case Instruction => "INSTRUCTION"
    case Jump => "JUMP"
    case BranchLeft => "BRANCH_LEFT"
    case BranchRight => "BRANCH_RIGHT"
    case StopIteration => "STOP_ITERATION"
    case Raise => "RAISE"
    case ExceptionHandled => "EXCEPTION_HANDLED"
    case PyUnwind => "PY_UNWIND"
    case PyThrow => "PY_THROW"
    case Reraise => "RERAISE"
    case CReturn => "C_RETURN"
    case CRaise => "C_RAISE"
    case Branch => "BRANCH"
  }

  predicate IsUpper(c: char) {
    'A' <= c <= 'Z'
  }

  function LowerChar(c: char): char {
    if IsUpper(c) then (c as int + 32) as char else c
  }

  /** `str.lower()` on ASCII text. */
  function Lower(s: string): string {
    seq(|s|, i requires 0 <= i < |s| => LowerChar(s[i]))
  }

  /** `name.startswith("py_")`. */
  predicate HasPyPrefix(name: string) {
    |name| >= 3 && name[0] == 'p' && name[1] == 'y' && name[2] == '_'
  }

  /** The normalisation of one public attribute name: lower-case it, then strip
      a leading `py_`. */
  function Normalise(attr: string): string {
    var name := Lower(attr);
    if HasPyPrefix(name) then name[3..] else name
  }

  /** The name `event2string` gives an event (EventNameIsNormalised shows it is
      the normalised attribute name). */
  function EventName(e: Event): string {
    match e
    case PyStart => "start"
    case PyResume => "resume"
    case PyReturn => "return"
    case PyYield => "yield"
    case Call => "call"
    case Line => "line"
    case Instruction => "instruction"
    case Jump => "jump"
    case BranchLeft => "branch_left"
    case BranchRight => "branch_right"
    case StopIteration => "stop_iteration"
    case Raise => "raise"
    case ExceptionHandled => "exception_handled"
    case PyUnwind => "unwind"
    case PyThrow => "throw"
    case Reraise => "reraise"
    case CReturn => "c_return"
    case CRaise => "c_raise"
    case Branch => "branch"
  }

  /** One step of the normalisation, on a literal attribute name. */
  lemma NormaliseLiteral(attr: string, lowered: string, name: string)
    requires Lower(attr) == lowered
    requires if HasPyPrefix(lowered) then name == lowered[3..] else name == lowered
    ensures Normalise(attr) == name
  {
  }

  /** `PY_START`, `PY_RESUME` and `PY_RETURN` lose their prefix. */
  lemma NormalisedEntryNames(e: Event)
    requires e in {PyStart, PyResume, PyReturn}
    ensures EventName(e) == Normalise(AttrName(e))
  {
    match e
    case PyStart => NormaliseLiteral("PY_START", "py_start", "start");
    case PyResume => NormaliseLiteral("PY_RESUME", "py_resume", "resume");
    case PyReturn => NormaliseLiteral("PY_RETURN", "py_return", "return");
  }

  /** `PY_YIELD`, `PY_UNWIND` and `PY_THROW` lose their prefix. */
  lemma NormalisedExitNames(e: Event)
    requires e in {PyYield, PyUnwind, PyThrow}
    ensures EventName(e) == Normalise(AttrName(e))
  {
    match e
    case PyYield => NormaliseLiteral("PY_YIELD", "py_yield", "yield");
    case PyUnwind => NormaliseLiteral("PY_UNWIND", "py_unwind", "unwind");
    case PyThrow => NormaliseLiteral("PY_THROW", "py_throw", "throw");
  }

  /** Short attributes without the prefix are only lower-cased. */
  lemma NormalisedShortNames(e: Event)
    requires e in {Call, Line, Jump, Raise, Reraise, CReturn, CRaise, Branch}
    ensures EventName(e) == Normalise(AttrName(e))
  {
    match e
    case Call => NormaliseLiteral("CALL", "call", "call");
    case Line => NormaliseLiteral("LINE", "line", "line");
    case Jump => NormaliseLiteral("JUMP", "jump", "jump");
    case Raise => NormaliseLiteral("RAISE", "raise", "raise");
    case Reraise => NormaliseLiteral("RERAISE", "reraise", "reraise");
    case CReturn => NormaliseLiteral("C_RETURN", "c_return", "c_return");
    case CRaise => NormaliseLiteral("C_RAISE", "c_raise", "c_raise");
    case Branch => NormaliseLiteral("BRANCH", "branch", "branch");
  }

  /** `INSTRUCTION` and the branch attributes are only lower-cased. */
  lemma NormalisedBranchNames(e: Event)
    requires e in {Instruction, BranchLeft, BranchRight}
    ensures EventName(e) == Normalise(AttrName(e))
  {
    match e
    case Instruction => NormaliseLiteral("INSTRUCTION", "instruction", "instruction");
    case BranchLeft => NormaliseLiteral("BRANCH_LEFT", "branch_left", "branch_left");
    case BranchRight => NormaliseLiteral("BRANCH_RIGHT", "branch_right", "branch_right");
  }

  /** `STOP_ITERATION` and `EXCEPTION_HANDLED` are only lower-cased. */
  lemma NormalisedExceptionNames(e: Event)
    requires e in {StopIteration, ExceptionHandled}
    ensures EventName(e) == Normalise(AttrName(e))
  {
    match e
    case StopIteration => NormaliseLiteral("STOP_ITERATION", "stop_iteration", "stop_iteration");
    case ExceptionHandled => NormaliseLiteral("EXCEPTION_HANDLED", "exception_handled", "exception_handled");
  }

  /** The table of event names is what the normalisation loop computes from
      the attribute names. */
  lemma EventNameIsNormalised(e: Event)
    ensures EventName(e) == Normalise(AttrName(e))
  {
    if e in {PyStart, PyResume, PyReturn} {
      NormalisedEntryNames(e);
    } else if e in {PyYield, PyUnwind, PyThrow} {
      NormalisedExitNames(e);
    } else if e in {Call, Line, Jump, Raise, Reraise, CReturn, CRaise, Branch} {
      NormalisedShortNames(e);
    } else if e in {Instruction, BranchLeft, BranchRight} {
      NormalisedBranchNames(e);
    } else {
      NormalisedExceptionNames(e);
    }
  }

  /** The names of `ALL_EVENT_NAMES`, the default of `stop`'s event set. */
  const AllEventNames: set<string> :=
    {"branch", "branch_left", "branch_right", "c_call", "c_exception", "c_return",
     "call", "exception", "instruction", "jump", "line", "raise", "resume",
     "return", "start", "yield"}

  /** Six event kinds have a normalised name that `ALL_EVENT_NAMES` does not
      list; every other kind's name is listed. */
  lemma AllEventNamesCoverage(e: Event)
    ensures EventName(e) !in AllEventNames <==>
            e in {StopIteration, ExceptionHandled, PyUnwind, PyThrow, Reraise, CRaise}
  {
  }

  /** A normalised name never holds an upper-case letter. */
  lemma NormaliseIsLowerCase(attr: string)
    ensures forall i :: 0 <= i < |Normalise(attr)| ==> !IsUpper(Normalise(attr)[i])
  {
  }

  /** `PY_` (in any case) is stripped; the rest is only lower-cased. */
  lemma NormalisePrefixed(rest: string)
    ensures Normalise("PY_" + rest) == Lower(rest)
    ensures Normalise("py_" + rest) == Lower(rest)
  {
    assert HasPyPrefix(Lower("PY_" + rest));
    assert Lower("PY_" + rest)[3..] == Lower(rest);
    assert HasPyPrefix(Lower("py_" + rest));
    assert Lower("py_" + rest)[3..] == Lower(rest);
  }

  lemma NormaliseUnprefixed(attr: string)
    requires !HasPyPrefix(Lower(attr))
    ensures Normalise(attr) == Lower(attr) && |Normalise(attr)| == |attr|
  {
  }

  /** A public attribute is one whose name does not start with `_`. */
  predicate IsPublic(attr: string) {
    !(|attr| > 0 && attr[0] == '_')
  }

  /** `event2string` after the loop over `attrs`: later attributes overwrite
      earlier ones with the same value. */
  function EventToString<V>(attrs: seq<(string, V)>): map<V, string>
    decreases |attrs|
  {
    if |attrs| == 0 then map[]
    else
      var m := EventToString(attrs[..|attrs| - 1]);
      var (attr, v) := attrs[|attrs| - 1];
      if IsPublic(attr) then m[v := Normalise(attr)] else m
  }

  /** `eventname2int` after the same loop. */
  function NameToEvent<V>(attrs: seq<(string, V)>): map<string, V>
    decreases |attrs|
  {
    if |attrs| == 0 then map[]
    else
      var m := NameToEvent(attrs[..|attrs| - 1]);
      var (attr, v) := attrs[|attrs| - 1];
      if IsPublic(attr) then m[Normalise(attr) := v] else m
  }

  /** The loop over `dir(sys.monitoring.events)` that fills both tables. */
  method BuildEventTables<V>(attrs: seq<(string, V)>)
    returns (eventToString: map<V, string>, nameToEvent: map<string, V>)
    ensures eventToString == EventToString(attrs)
    ensures nameToEvent == NameToEvent(attrs)
  {
    eventToString, nameToEvent := map[], map[];
    var i := 0;
    while i < |attrs|
      invariant 0 <= i <= |attrs|
      invariant eventToString == EventToString(attrs[..i])
      invariant nameToEvent == NameToEvent(attrs[..i])
    {
      var (attr, v) := attrs[i];
      if IsPublic(attr) {
        var name := Lower(attr);
        if HasPyPrefix(name) {
          name := name[3..];
        }
        eventToString := eventToString[v := name];
        nameToEvent := nameToEvent[name := v];
      }
      assert attrs[..i + 1][..i] == attrs[..i];
      i := i + 1;
    }
    assert attrs[..i] == attrs;
  }

  /** The public attributes of `attrs` carry distinct values and normalise to
      distinct names. */
  ghost predicate Distinct<V>(attrs: seq<(string, V)>) {
    forall i, j | 0 <= i < j < |attrs| && IsPublic(attrs[i].0) && IsPublic(attrs[j].0) ::
      attrs[i].1 != attrs[j].1 && Normalise(attrs[i].0) != Normalise(attrs[j].0)
  }

  /** Every key of `event2string` is the value of a public attribute whose
      normalised name it holds. */
  lemma {:induction false} EventToStringDomain<V>(attrs: seq<(string, V)>, v: V)
    requires v in EventToString(attrs)
    ensures exists i | 0 <= i < |attrs| && IsPublic(attrs[i].0) ::
      attrs[i].1 == v && EventToString(attrs)[v] == Normalise(attrs[i].0)
  {
    var init := attrs[..|attrs| - 1];
    var last := |attrs| - 1;
    if IsPublic(attrs[last].0) && attrs[last].1 == v {
      assert EventToString(attrs)[v] == Normalise(attrs[last].0);
    } else {
      EventToStringDomain(init, v);
      var i :| 0 <= i < |init| && IsPublic(init[i].0) &&
               init[i].1 == v && EventToString(init)[v] == Normalise(init[i].0);
      assert attrs[i] == init[i];
    }
  }

  /** With distinct values and names the two tables are inverse to each other:
      every public attribute's value maps to its normalised name and back, and
      the tables hold nothing else. */
  lemma {:induction false} EventTablesRoundTrip<V>(attrs: seq<(string, V)>)
    requires Distinct(attrs)
    ensures forall i | 0 <= i < |attrs| && IsPublic(attrs[i].0) ::
      && attrs[i].1 in EventToString(attrs)
      && EventToString(attrs)[attrs[i].1] == Normalise(attrs[i].0)
      && Normalise(attrs[i].0) in NameToEvent(attrs)
      && NameToEvent(attrs)[Normalise(attrs[i].0)] == attrs[i].1
    ensures forall v | v in EventToString(attrs) ::
      EventToString(attrs)[v] in NameToEvent(attrs) &&
      NameToEvent(attrs)[EventToString(attrs)[v]] == v
  {
    if |attrs| > 0 {
      var init := attrs[..|attrs| - 1];
      assert Distinct(init) by {
        forall i, j | 0 <= i < j < |init| && IsPublic(init[i].0) && IsPublic(init[j].0)
          ensures init[i].1 != init[j].1 && Normalise(init[i].0) != Normalise(init[j].0)
        {
          assert init[i] == attrs[i] && init[j] == attrs[j];
        }
      }
      EventTablesRoundTrip(init);
      forall i | 0 <= i < |init| ensures init[i] == attrs[i] { }
    }
    forall v | v in EventToString(attrs)
      ensures EventToString(attrs)[v] in NameToEvent(attrs) &&
              NameToEvent(attrs)[EventToString(attrs)[v]] == v
    {
      EventToStringDomain(attrs, v);
    }
  }
}
