/** Python values and list operations shared by the tracer models: optional
    values, object identities, list search and slice insertion. */
module Py {

  datatype Option<+T> = None | Some(value: T)

  /** A value, or the exception raised instead of returning it. */
  datatype Result<+T, +E> = Ok(value: T) | Err(error: E)

  /** A live frame object, by identity. */
  datatype Frame = Frame(id: nat)

  /** A code object, by identity. */
  datatype Code = Code(id: nat)

  /** What a hook list can be handed as a trace function: a plain function,
      a bound method, or any other object; `argCount` is `co_argcount` of the
      function's code. */
  datatype PyObject =
    | Function(id: nat, argCount: nat)
    | Method(id: nat, argCount: nat)
    | Other(id: nat)

  /** `inspect.isfunction`: true of plain functions only, not of bound methods. */
  predicate IsFunction(o: PyObject) {
    o.Function?
  }

  /** `s.index(x)` of a Python list: the first position holding `x`, or None
      where Python raises ValueError. */
  function FirstIndex<T(==)>(s: seq<T>, x: T): (r: Option<nat>)
    ensures r.Some? ==> r.value < |s| && s[r.value] == x && x !in s[..r.value]
    ensures r.None? <==> x !in s
  {
    if |s| == 0 then None
    else if s[0] == x then Some(0)
    else match FirstIndex(s[1..], x)
      case None => None
      case Some(i) => assert s[1..][..i] == s[1..i + 1]; Some(i + 1)
  }

  /** Writing a value the list did not hold puts its first occurrence where
      it was written. */
  lemma FirstIndexOfWritten<T>(s: seq<T>, k: nat, x: T)
    requires k < |s| && x !in s
    ensures FirstIndex(s[k := x], x) == Some(k)
  {
    var w := s[k := x];
    assert w[k] == x;
    assert forall i :: 0 <= i < k ==> w[i] == s[i];
    assert w[..k + 1][k] == x;
  }

  /** Python's indexing of a list of length `n`: negative indices count from
      the end; None where Python raises IndexError. */
  function PyIndex(index: int, n: nat): (r: Option<nat>)
    ensures r.Some? <==> -(n as int) <= index < n
    ensures r.Some? ==> r.value < n && r.value == (if index < 0 then index + n else index)
  {
    if 0 <= index < n then Some(index)
    else if -(n as int) <= index < 0 then Some(index + n)
    else None
  }

  /** Python's clamping of a slice bound `p` against a list of length `n`:
      negative bounds count from the end, and both ends saturate. */
  function SliceIndex(p: int, n: nat): nat {
    if p < 0 then (if n + p < 0 then 0 else n + p)
    else if p > n then n
    else p
  }

  /** `s[p:p] = [x]`: insert `x` at the clamped position. */
  function SliceInsert<T>(s: seq<T>, p: int, x: T): seq<T> {
    var k := SliceIndex(p, |s|);
    s[..k] + [x] + s[k..]
  }

  /** The slice insertion adds exactly `x`, at the clamped position, and keeps
      everything else in order around it. */
  lemma SliceInsertShape<T>(s: seq<T>, p: int, x: T)
    ensures var r, k := SliceInsert(s, p, x), SliceIndex(p, |s|);
            && |r| == |s| + 1 && k <= |s| && r[k] == x
            && r[..k] == s[..k] && r[k + 1..] == s[k..]
            && multiset(r) == multiset(s) + multiset{x}
  {
    var r, k := SliceInsert(s, p, x), SliceIndex(p, |s|);
    assert r[..k] == s[..k];
    assert r[k + 1..] == s[k..];
    calc {
      multiset(r);
      multiset(s[..k] + [x]) + multiset(s[k..]);
      multiset(s[..k]) + multiset{x} + multiset(s[k..]);
      { assert s == s[..k] + s[k..]; }
      multiset(s) + multiset{x};
    }
  }

  /** `del s[i]`: the entries before `i` stay, the ones after move down one. */
  function Delete<T>(s: seq<T>, i: nat): (r: seq<T>)
    requires i < |s|
    ensures |r| == |s| - 1
    ensures forall j :: 0 <= j < i ==> r[j] == s[j]
    ensures forall j :: i <= j < |r| ==> r[j] == s[j + 1]
  {
    s[..i] + s[i + 1..]
  }

  /** The number of occupied entries of a fixed table. */
  function CountSome<T>(s: seq<Option<T>>): nat {
    if |s| == 0 then 0 else (if s[0].Some? then 1 else 0) + CountSome(s[1..])
  }

  lemma {:induction false} CountSomeBounds<T>(s: seq<Option<T>>)
    ensures CountSome(s) <= |s|
    ensures CountSome(s) == |s| <==> forall i :: 0 <= i < |s| ==> s[i].Some?
    ensures CountSome(s) == 0 <==> forall i :: 0 <= i < |s| ==> s[i].None?
  {
    if |s| > 0 {
      CountSomeBounds(s[1..]);
      assert forall i :: 1 <= i < |s| ==> s[i] == s[1..][i - 1];
    }
  }

  /** Filling an empty entry adds one to the count; emptying a full one takes one away. */
  lemma {:induction false} CountSomeUpdate<T>(s: seq<Option<T>>, k: nat, v: Option<T>)
    requires k < |s|
    ensures CountSome(s[k := v]) ==
            CountSome(s) - (if s[k].Some? then 1 else 0) + (if v.Some? then 1 else 0)
  {
    if k > 0 {
      assert s[k := v][1..] == s[1..][k - 1 := v];
      CountSomeUpdate(s[1..], k - 1, v);
    } else {
      assert s[k := v][1..] == s[1..];
    }
  }
}
