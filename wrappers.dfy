/** Option and Result, the failure-compatible wrappers used by every other module. */
module Wrappers {

  datatype Option<+T> = None | Some(value: T) {
    function GetOr(default: T): (r: T) {
      match this
      case Some(v) => v
      case None => default
    }
  }

  /** A value, or the exception a Python operation would have raised. */
  datatype Result<+T, +E> = Ok(value: T) | Err(error: E) {
    predicate IsFailure() {
      Err?
    }

    function PropagateFailure<U>(): (r: Result<U, E>)
      requires Err?
    {
      Err(error)
    }

    function Extract(): (r: T)
      requires Ok?
    {
      value
    }
  }

  /** `acc + rest` when the rest of a left-to-right loop succeeds, and its failure otherwise. */
  function Prepend<T, E>(acc: seq<T>, rest: Result<seq<T>, E>): (r: Result<seq<T>, E>) {
    match rest
    case Ok(tail) => Ok(acc + tail)
    case Err(e) => Err(e)
  }

  /**
   * Applies `f` to every element from left to right and stops at the first failure,
   * as a Python loop does when the body raises.
   */
  function MapAll<A, B, E>(f: A -> Result<B, E>, s: seq<A>): (r: Result<seq<B>, E>)
    decreases |s|
  {
    if |s| == 0 then Ok([])
    else
      match f(s[0])
      case Err(e) => Err(e)
      case Ok(b) => Prepend([b], MapAll(f, s[1..]))
  }

  /**
   * The loop succeeds exactly when every element does, with one result per element;
   * a failure is that of the first failing element.
   */
  lemma {:induction false} MapAllSpec<A, B, E>(f: A -> Result<B, E>, s: seq<A>)
    ensures MapAll(f, s).Ok? <==> forall i :: 0 <= i < |s| ==> f(s[i]).Ok?
    ensures MapAll(f, s).Ok? ==>
      |MapAll(f, s).value| == |s| && forall i :: 0 <= i < |s| ==> f(s[i]) == Ok(MapAll(f, s).value[i])
    ensures MapAll(f, s).Err? ==>
      exists k :: 0 <= k < |s| && f(s[k]) == Err(MapAll(f, s).error) && forall i :: 0 <= i < k ==> f(s[i]).Ok?
    decreases |s|
  {
    if |s| > 0 {
      MapAllSpec(f, s[1..]);
      assert forall i :: 1 <= i < |s| ==> s[i] == s[1..][i - 1];
      if f(s[0]).Ok? && MapAll(f, s[1..]).Err? {
        var k :| 0 <= k < |s[1..]| && f(s[1..][k]) == Err(MapAll(f, s[1..]).error)
          && forall i :: 0 <= i < k ==> f(s[1..][i]).Ok?;
        assert f(s[k + 1]) == Err(MapAll(f, s).error);
      }
    }
  }

  /** A loop that has succeeded on `s` and then runs its body on `x`. */
  lemma MapAllSnoc<A, B, E>(f: A -> Result<B, E>, s: seq<A>, x: A, done: seq<B>)
    requires MapAll(f, s) == Ok(done)
    ensures f(x).Ok? ==> MapAll(f, s + [x]) == Ok(done + [f(x).value])
    ensures f(x).Err? ==> MapAll(f, s + [x]) == Err(f(x).error)
  {
    var t := s + [x];
    MapAllSpec(f, s);
    MapAllSpec(f, t);
    assert forall i :: 0 <= i < |s| ==> t[i] == s[i];
    assert t[|s|] == x;
    var r := MapAll(f, t);
    if f(x).Ok? {
      var want := done + [f(x).value];
      assert forall i :: 0 <= i < |t| ==> f(t[i]) == Ok(want[i]);
      assert r.value == want;
    } else {
      var k :| 0 <= k < |t| && f(t[k]) == Err(r.error) && forall i :: 0 <= i < k ==> f(t[i]).Ok?;
      assert k == |s|;
    }
  }

  /** One turn of a left-to-right loop that has succeeded on the first `j` elements. */
  lemma MapAllStep<A, B, E>(f: A -> Result<B, E>, s: seq<A>, j: nat, done: seq<B>)
    requires j < |s| && MapAll(f, s[..j]) == Ok(done)
    ensures f(s[j]).Ok? ==> MapAll(f, s[..j + 1]) == Ok(done + [f(s[j]).value])
    ensures f(s[j]).Err? ==> MapAll(f, s) == Err(f(s[j]).error)
  {
    assert s[..j + 1] == s[..j] + [s[j]];
    MapAllSnoc(f, s[..j], s[j], done);
    if f(s[j]).Err? {
      MapAllFirstErr(f, s, j);
    }
  }

  /** The loop has run over every element. */
  lemma MapAllDone<A, B, E>(f: A -> Result<B, E>, s: seq<A>, done: seq<B>)
    requires MapAll(f, s[..|s|]) == Ok(done)
    ensures MapAll(f, s) == Ok(done)
  {
    assert s[..|s|] == s;
  }

  /** The first failing element decides the failure of the whole loop. */
  lemma MapAllFirstErr<A, B, E>(f: A -> Result<B, E>, s: seq<A>, i: nat)
    requires i < |s| && MapAll(f, s[..i]).Ok? && f(s[i]).Err?
    ensures MapAll(f, s) == Err(f(s[i]).error)
  {
    MapAllSpec(f, s[..i]);
    MapAllSpec(f, s);
    var r := MapAll(f, s);
    assert forall j :: 0 <= j < i ==> s[..i][j] == s[j];
    assert forall j :: 0 <= j < i ==> f(s[j]).Ok?;
  }

  /**
   * Replaces every element by `f` of it, from left to right, until `f` fails: the
   * elements before the failing one are replaced, it and the later ones are left as they
   * were, and the failure is returned beside them; a loop that updates a list in place
   * leaves it so when its body raises.
   */
  function ApplyUntilError<T, E>(f: T -> Result<T, E>, s: seq<T>): (r: (seq<T>, Option<E>))
    ensures |r.0| == |s|
    decreases |s|
  {
    if |s| == 0 then ([], None)
    else
      match f(s[0])
      case Err(e) => (s, Some(e))
      case Ok(x) =>
        var rest := ApplyUntilError(f, s[1..]);
        ([x] + rest.0, rest.1)
  }

  /** No failure exactly when every element succeeds, and then each is replaced. */
  lemma {:induction false} ApplyUntilErrorSucceeds<T, E>(f: T -> Result<T, E>, s: seq<T>)
    ensures ApplyUntilError(f, s).1.None? <==> forall i :: 0 <= i < |s| ==> f(s[i]).Ok?
    ensures ApplyUntilError(f, s).1.None? ==>
      forall i :: 0 <= i < |s| ==> f(s[i]) == Ok(ApplyUntilError(f, s).0[i])
    decreases |s|
  {
    if |s| > 0 {
      ApplyUntilErrorSucceeds(f, s[1..]);
      assert forall i :: 1 <= i < |s| ==> s[i] == s[1..][i - 1];
    }
  }

  /** A failure is that of the first failing element; the elements from it on are unchanged. */
  lemma {:induction false} ApplyUntilErrorStops<T, E>(f: T -> Result<T, E>, s: seq<T>)
    ensures ApplyUntilError(f, s).1.Some? ==> FailsAt(f, s, ApplyUntilError(f, s))
    decreases |s|
  {
    var r := ApplyUntilError(f, s);
    if |s| > 0 && r.1.Some? {
      if f(s[0]).Err? {
        assert r == (s, Some(f(s[0]).error));
        assert StopsAt(f, s, r, 0);
      } else {
        ApplyUntilErrorStops(f, s[1..]);
        var rest := ApplyUntilError(f, s[1..]);
        assert r == ([f(s[0]).value] + rest.0, rest.1);
        var k :| StopsAt(f, s[1..], rest, k);
        StopsAtShift(f, s, rest, k);
      }
    }
  }

  /** The loop stopped at element `k`, which failed with the returned failure. */
  ghost predicate StopsAt<T, E>(f: T -> Result<T, E>, s: seq<T>, r: (seq<T>, Option<E>), k: nat) {
    k < |s| && |r.0| == |s| && r.1.Some? && f(s[k]) == Err(r.1.value)
    && (forall i :: 0 <= i < k ==> f(s[i]) == Ok(r.0[i])) && r.0[k..] == s[k..]
  }

  ghost predicate FailsAt<T, E>(f: T -> Result<T, E>, s: seq<T>, r: (seq<T>, Option<E>)) {
    exists k :: StopsAt(f, s, r, k)
  }

  /** Stopping at `k` in the tail is stopping at `k + 1` after a first element that succeeded. */
  lemma StopsAtShift<T, E>(f: T -> Result<T, E>, s: seq<T>, rest: (seq<T>, Option<E>), k: nat)
    requires |s| > 0 && f(s[0]).Ok? && StopsAt(f, s[1..], rest, k)
    ensures StopsAt(f, s, ([f(s[0]).value] + rest.0, rest.1), k + 1)
  {
    var tail := s[1..];
    var out := [f(s[0]).value] + rest.0;
    assert out[k + 1..] == rest.0[k..];
    assert s[k + 1..] == tail[k..];
    assert forall i :: 1 <= i < k + 1 ==> s[i] == tail[i - 1] && out[i] == rest.0[i - 1];
  }

  /** One step on the suffix starting at `i`. */
  lemma ApplyUntilErrorAt<T, E>(f: T -> Result<T, E>, s: seq<T>, i: nat)
    requires i < |s|
    ensures f(s[i]).Err? ==> ApplyUntilError(f, s[i..]) == (s[i..], Some(f(s[i]).error))
    ensures f(s[i]).Ok? ==>
      ApplyUntilError(f, s[i..]).0 == [f(s[i]).value] + ApplyUntilError(f, s[i + 1..]).0
      && ApplyUntilError(f, s[i..]).1 == ApplyUntilError(f, s[i + 1..]).1
  {
    var tail := s[i..];
    assert tail[0] == s[i] && tail[1..] == s[i + 1..];
  }

  /** The state of an in-place loop after `i` elements: `out` holds the replaced prefix. */
  ghost predicate ApplyLoop<T, E>(f: T -> Result<T, E>, s: seq<T>, out: seq<T>, i: nat) {
    i <= |s| && |out| == |s| && out[i..] == s[i..]
    && ApplyUntilError(f, s).0 == out[..i] + ApplyUntilError(f, s[i..]).0
    && ApplyUntilError(f, s).1 == ApplyUntilError(f, s[i..]).1
  }

  lemma ApplyLoopStart<T, E>(f: T -> Result<T, E>, s: seq<T>)
    ensures ApplyLoop(f, s, s, 0)
  {
    assert s[..0] == [] && s[0..] == s;
  }

  /** Replacing one more element that succeeds keeps the loop state. */
  lemma ApplyLoopOk<T, E>(f: T -> Result<T, E>, s: seq<T>, out: seq<T>, i: nat)
    requires ApplyLoop(f, s, out, i) && i < |s| && f(s[i]).Ok?
    ensures ApplyLoop(f, s, out[i := f(s[i]).value], i + 1)
  {
    var x := f(s[i]).value;
    var out' := out[i := x];
    var rest := ApplyUntilError(f, s[i + 1..]).0;
    ApplyUntilErrorAt(f, s, i);
    assert out'[..i + 1] == out[..i] + [x];
    assert out[i + 1..] == out[i..][1..] == s[i..][1..] == s[i + 1..];
    assert out'[i + 1..] == out[i + 1..];
    assert out[..i] + ([x] + rest) == (out[..i] + [x]) + rest;
  }

  /** A failing element ends the loop with the list as it stands and that element's failure. */
  lemma ApplyLoopErr<T, E>(f: T -> Result<T, E>, s: seq<T>, out: seq<T>, i: nat)
    requires ApplyLoop(f, s, out, i) && i < |s| && f(s[i]).Err?
    ensures ApplyUntilError(f, s) == (out, Some(f(s[i]).error))
  {
    ApplyUntilErrorAt(f, s, i);
    assert out == out[..i] + out[i..];
  }

  lemma ApplyLoopDone<T, E>(f: T -> Result<T, E>, s: seq<T>, out: seq<T>)
    requires ApplyLoop(f, s, out, |s|)
    ensures ApplyUntilError(f, s) == (out, None)
  {
    assert out[..|s|] == out && s[|s|..] == [];
    assert ApplyUntilError(f, s[|s|..]) == ([], None);
    assert out + [] == out;
  }
}
