/** The include filter of `tracer/tracefilter.py`: a set of code objects
    resolved from frames and functions, with membership, insertion,
    removal and clearing. */
module TraceFilters {
  import opened Py

  /** What a frame or function looks like to `to_f_code`: an object with a
      `func_code` attribute, an object whose code-valued members, in
      `inspect.getmembers` order, are listed, or an object whose inspection
      raises. */
  datatype Target =
    | WithFuncCode(funcCode: Code)
    | WithCodeMembers(codeMembers: seq<Code>)
    | Raising

  /** `to_f_code(f)`: the object's `func_code`, else its first code member,
      else None; `Err` where the inspection raises. */
  function ToFCode(t: Target): (r: Result<Option<Code>, ()>)
    ensures r.Err? <==> t.Raising?
    ensures r.Ok? && r.value.None? <==> t.WithCodeMembers? && |t.codeMembers| == 0
  {
    match t
    case WithFuncCode(c) => Ok(Some(c))
    case WithCodeMembers(ms) => if |ms| > 0 then Ok(Some(ms[0])) else Ok(None)
    case Raising => Err(())
  }

  /** The set of `to_f_code` results the filter holds; None among them is
      possible. */
  type CodeSet = set<Option<Code>>

  /** `add_to_set(frame_or_fn, f_set)`: whether it added, and the set after. */
  function AddToSet(t: Target, codes: CodeSet): (r: (bool, CodeSet))
    ensures r.0 <==> !t.Raising?
    ensures r.0 ==> r.1 == codes + {ToFCode(t).value}
    ensures !r.0 ==> r.1 == codes
  {
    match ToFCode(t)
    case Ok(c) => (true, codes + {c})
    case Err(_) => (false, codes)
  }

  /** The codes `fs2set(frames_or_fns)` collects: the resolved code of each
      input, skipping the ones that raise. */
  function Codes(ts: seq<Target>): CodeSet {
    if |ts| == 0 then {}
    else AddToSet(ts[|ts| - 1], Codes(ts[..|ts| - 1])).1
  }

  /** A code is collected exactly when some input resolves to it. */
  lemma {:induction false} CodesMembers(ts: seq<Target>, c: Option<Code>)
    ensures c in Codes(ts) <==> exists i :: 0 <= i < |ts| && ToFCode(ts[i]) == Ok(c)
  {
    if |ts| > 0 {
      var n := |ts| - 1;
      CodesMembers(ts[..n], c);
      assert forall i :: 0 <= i < n ==> ts[..n][i] == ts[i];
      if i :| 0 <= i < |ts| && ToFCode(ts[i]) == Ok(c) {
        if i < n {
          assert ts[..n][i] == ts[i];
        }
      }
    }
  }

  /** `fs2set(frames_or_fns)`. */
  method FsToSet(ts: seq<Target>) returns (codes: CodeSet)
    ensures codes == Codes(ts)
  {
    codes := {};
    for i := 0 to |ts|
      invariant codes == Codes(ts[..i])
    {
      codes := AddToSet(ts[i], codes).1;
      assert ts[..i + 1][..i] == ts[..i];
    }
    assert ts[..|ts|] == ts;
  }

  /** `is_included` on a set of codes: the object resolves to a held code. */
  predicate Included(codes: CodeSet, t: Target) {
    match ToFCode(t)
    case Ok(c) => c in codes
    case Err(_) => false
  }

  /** `TraceFilter(include_fns)`: the codes of the functions to include. */
  class TraceFilter {
    var includeFCodes: CodeSet

    constructor(includeFns: seq<Target>)
      ensures includeFCodes == Codes(includeFns)
    {
      var codes := FsToSet(includeFns);
      includeFCodes := codes;
    }

    /** `is_included(frame_or_fn)`: the object's code is held; False when
        resolving it raises. */
    function IsIncluded(t: Target): (r: bool)
      reads this
      ensures r <==> Included(includeFCodes, t)
    {
      match ToFCode(t)
      case Ok(c) => c in includeFCodes
      case Err(_) => false
    }

    method ClearInclude()
      modifies this
      ensures includeFCodes == {}
    {
      includeFCodes := {};
    }

    /** `add_include(frame_or_fn)`. */
    method AddInclude(t: Target) returns (ok: bool)
      modifies this
      ensures (ok, includeFCodes) == AddToSet(t, old(includeFCodes))
    {
      var added := AddToSet(t, includeFCodes);
      ok, includeFCodes := added.0, added.1;
    }

    /** `remove_include(frame_or_fn)`: True after removing the object's
        code; False, with nothing removed, when the code is not held or
        resolving it raises. */
    method RemoveInclude(t: Target) returns (ok: bool)
      modifies this
      ensures ok <==> Included(old(includeFCodes), t)
      ensures ok ==> includeFCodes == old(includeFCodes) - {ToFCode(t).value}
      ensures !ok ==> includeFCodes == old(includeFCodes)
    {
      var c := ToFCode(t);
      if c.Err? || c.value !in includeFCodes {
        return false;
      }
      includeFCodes := includeFCodes - {c.value};
      return true;
    }
  }

  /** A filter built from a list includes exactly the objects resolving to
      the code of some listed object. */
  lemma FilterOfList(ts: seq<Target>, t: Target)
    ensures Included(Codes(ts), t) <==>
            !t.Raising? && exists i :: 0 <= i < |ts| && ToFCode(ts[i]) == ToFCode(t)
  {
    if !t.Raising? {
      CodesMembers(ts, ToFCode(t).value);
    }
  }

  /** After a successful `add_include(x)`, `x` is included, and another
      object is included exactly when it was before or shares `x`'s code. */
  lemma AddIncludeMembership(codes: CodeSet, x: Target, y: Target)
    requires AddToSet(x, codes).0
    ensures Included(AddToSet(x, codes).1, x)
    ensures Included(AddToSet(x, codes).1, y) <==> Included(codes, y) || (!y.Raising? && ToFCode(y) == ToFCode(x))
  {
  }

  /** After `remove_include(x)` returns True, `x` is no longer included, nor
      is any object sharing its code; others keep their membership. */
  lemma RemoveIncludeMembership(codes: CodeSet, x: Target, y: Target)
    requires Included(codes, x)
    ensures !Included(codes - {ToFCode(x).value}, x)
    ensures Included(codes - {ToFCode(x).value}, y) <==> Included(codes, y) && ToFCode(y) != ToFCode(x)
  {
  }

  /** Adding an object with no code puts None in the set, after which every
      other object with no code counts as included. */
  lemma NoCodeAliases(codes: CodeSet, x: Target, y: Target)
    requires ToFCode(x) == Ok(None) && ToFCode(y) == Ok(None)
    ensures AddToSet(x, codes).0 && Included(AddToSet(x, codes).1, y)
  {
  }

  /** Once cleared, the filter includes nothing. */
  lemma ClearedIncludesNothing(t: Target)
    ensures !Included({}, t)
  {
  }
}
