/**
 * intersect_lists (data-functions.js, scripts/functions.js): a copy of the
 * first candidate list from which, list by list, every element missing
 * from the next list is spliced out, walking the copy backwards.
 */
module Intersect {
  import opened Wrappers

  /** What the function throws when it reads through an undefined list. */
  datatype JsError = TypeError

  /** The elements of `xs` that occur in `l`, in order, duplicates kept. */
  function Keep(xs: seq<string>, l: seq<string>): seq<string>
  {
    if xs == [] then [] else (if xs[0] in l then [xs[0]] else []) + Keep(xs[1..], l)
  }

  /**
   * `x` occurs in each of the lists 1 to n - 1; a list that is `None` (the
   * `undefined` an index miss yields) holds nothing.
   */
  predicate InAll(x: string, inputs: seq<Option<seq<string>>>, n: nat)
    requires n <= |inputs|
  {
    forall k :: 1 <= k < n ==> inputs[k].Some? && x in inputs[k].value
  }

  /** The elements of `xs` that occur in each of the lists 1 to n - 1, in order, duplicates kept. */
  function Common(xs: seq<string>, inputs: seq<Option<seq<string>>>, n: nat): seq<string>
    requires n <= |inputs|
  {
    if xs == [] then [] else (if InAll(xs[0], inputs, n) then [xs[0]] else []) + Common(xs[1..], inputs, n)
  }

  /** `a` is `b` with some elements left out, the rest in the same order. */
  predicate IsSubsequence(a: seq<string>, b: seq<string>)
  {
    a == [] || (b != [] && ((a[0] == b[0] && IsSubsequence(a[1..], b[1..])) || IsSubsequence(a, b[1..])))
  }

  /**
   * The copy once the lists 1 to n - 1 are applied, or the TypeError thrown
   * when a list met while the copy is still non-empty is undefined.
   */
  function IntersectUpTo(inputs: seq<Option<seq<string>>>, n: nat): Result<seq<string>, JsError>
    requires 1 <= n <= |inputs| && inputs[0].Some?
  {
    if n == 1 then Ok(inputs[0].value)
    else
      match IntersectUpTo(inputs, n - 1)
      case Err(e) => Err(e)
      case Ok(output) =>
        if output == [] then Ok([])
        else if inputs[n - 1].None? then Err(TypeError)
        else Ok(Keep(output, inputs[n - 1].value))
  }

  /** What intersect_lists returns or throws; `inputs[0].slice(0)` throws when there is no first list. */
  function Intersection(inputs: seq<Option<seq<string>>>): Result<seq<string>, JsError>
  {
    if inputs == [] || inputs[0].None? then Err(TypeError) else IntersectUpTo(inputs, |inputs|)
  }

  /** intersect_lists, the copy of the first list being spliced list by list. */
  method IntersectLists(inputs: seq<Option<seq<string>>>) returns (r: Result<seq<string>, JsError>)
    ensures r == Intersection(inputs)
  {
    if inputs == [] || inputs[0].None? {
      return Err(TypeError);
    }
    var output := inputs[0].value;
    var i := 1;
    while i < |inputs|
      invariant 1 <= i <= |inputs|
      invariant IntersectUpTo(inputs, i) == Ok(output)
    {
      if output != [] {
        if inputs[i].None? {
          assert IntersectUpTo(inputs, i + 1) == Err(TypeError);
          ErrorIsFinal(inputs, i + 1, |inputs|);
          return Err(TypeError);
        }
        output := RemoveMissing(output, inputs[i].value);
      }
      i := i + 1;
    }
    return Ok(output);
  }

  /** The inner loop: from the back, every element of the copy missing from `l` is spliced out. */
  method RemoveMissing(output0: seq<string>, l: seq<string>) returns (output: seq<string>)
    ensures output == Keep(output0, l)
  {
    output := output0;
    var j := |output| - 1;
    while j >= 0
      invariant -1 <= j < |output0|
      invariant output == output0[..j + 1] + Keep(output0[j + 1..], l)
    {
      assert output[j] == output0[j];
      assert output0[j..][1..] == output0[j + 1..];
      if output[j] !in l {
        output := output[..j] + output[j + 1..];
        assert output == output0[..j] + Keep(output0[j..], l);
      } else {
        assert output0[..j + 1] == output0[..j] + [output0[j]];
      }
      j := j - 1;
    }
    assert output0[0..] == output0;
  }

  /** Once thrown, the TypeError is what the rest of the lists give. */
  lemma {:induction false} ErrorIsFinal(inputs: seq<Option<seq<string>>>, m: nat, n: nat)
    requires 1 <= m <= n <= |inputs| && inputs[0].Some?
    requires IntersectUpTo(inputs, m) == Err(TypeError)
    ensures IntersectUpTo(inputs, n) == Err(TypeError)
  {
    if m < n {
      ErrorIsFinal(inputs, m, n - 1);
    }
  }

  lemma {:induction false} KeepCommon(xs: seq<string>, inputs: seq<Option<seq<string>>>, n: nat)
    requires 1 <= n < |inputs| && inputs[n].Some?
    ensures Keep(Common(xs, inputs, n), inputs[n].value) == Common(xs, inputs, n + 1)
  {
    if xs != [] {
      KeepCommon(xs[1..], inputs, n);
      var rest := Common(xs[1..], inputs, n);
      assert InAll(xs[0], inputs, n + 1) <==> InAll(xs[0], inputs, n) && xs[0] in inputs[n].value;
      if InAll(xs[0], inputs, n) {
        assert Common(xs, inputs, n) == [xs[0]] + rest;
        assert ([xs[0]] + rest)[1..] == rest;
      } else {
        assert Common(xs, inputs, n) == rest;
      }
    }
  }

  lemma {:induction false} CommonOfNone(xs: seq<string>, inputs: seq<Option<seq<string>>>)
    requires 1 <= |inputs|
    ensures Common(xs, inputs, 1) == xs
  {
    if xs != [] {
      CommonOfNone(xs[1..], inputs);
    }
  }

  lemma {:induction false} CommonStaysEmpty(xs: seq<string>, inputs: seq<Option<seq<string>>>, m: nat, n: nat)
    requires m <= n <= |inputs|
    requires Common(xs, inputs, m) == []
    ensures Common(xs, inputs, n) == []
  {
    if xs != [] {
      CommonStaysEmpty(xs[1..], inputs, m, n);
    }
  }

  /** The copy is non-empty when the k-th list is met, and that list is undefined. */
  predicate ThrowsAt(inputs: seq<Option<seq<string>>>, k: int)
  {
    1 <= k < |inputs| && inputs[0].Some? && inputs[k].None? && Common(inputs[0].value, inputs, k) != []
  }

  /** While no TypeError is thrown, the copy holds the elements common to the first n lists. */
  lemma {:induction false} IntersectUpToIsCommon(inputs: seq<Option<seq<string>>>, n: nat)
    requires 1 <= n <= |inputs| && inputs[0].Some?
    ensures IntersectUpTo(inputs, n).Ok? ==> IntersectUpTo(inputs, n).value == Common(inputs[0].value, inputs, n)
  {
    var xs := inputs[0].value;
    if n == 1 {
      CommonOfNone(xs, inputs);
    } else {
      IntersectUpToIsCommon(inputs, n - 1);
      var k := n - 1;
      if IntersectUpTo(inputs, k).Ok? {
        var output := IntersectUpTo(inputs, k).value;
        if output == [] {
          CommonStaysEmpty(xs, inputs, k, n);
        } else if inputs[k].Some? {
          KeepCommon(xs, inputs, k);
        }
      }
    }
  }

  /** The TypeError is thrown exactly when some list is undefined while the copy is non-empty. */
  lemma {:induction false} IntersectUpToThrows(inputs: seq<Option<seq<string>>>, n: nat)
    requires 1 <= n <= |inputs| && inputs[0].Some?
    ensures IntersectUpTo(inputs, n).Err? <==> exists k :: k < n && ThrowsAt(inputs, k)
  {
    if n > 1 {
      var k := n - 1;
      IntersectUpToThrows(inputs, k);
      IntersectUpToIsCommon(inputs, k);
      if IntersectUpTo(inputs, k).Err? {
        var k' :| k' < k && ThrowsAt(inputs, k');
        assert k' < n;
      } else {
        var output := IntersectUpTo(inputs, k).value;
        assert output == Common(inputs[0].value, inputs, k);
        if IntersectUpTo(inputs, n).Err? {
          assert ThrowsAt(inputs, k);
        } else {
          assert !ThrowsAt(inputs, k);
          assert forall k' :: k' < n && ThrowsAt(inputs, k') ==> k' == k;
        }
      }
    }
  }

  /**
   * intersect_lists' outcome in closed form: a TypeError when there is no
   * first list, or when an undefined list is met while some element of the
   * first list is still common to all the lists before it; otherwise the
   * elements of the first list common to all the others.
   */
  lemma IntersectionResult(inputs: seq<Option<seq<string>>>)
    ensures inputs == [] || inputs[0].None? ==> Intersection(inputs) == Err(TypeError)
    ensures inputs != [] && inputs[0].Some? ==> (Intersection(inputs).Err? <==> exists k :: ThrowsAt(inputs, k))
    ensures Intersection(inputs).Ok? ==> Intersection(inputs).value == Common(inputs[0].value, inputs, |inputs|)
  {
    if inputs != [] && inputs[0].Some? {
      IntersectUpToIsCommon(inputs, |inputs|);
      IntersectUpToThrows(inputs, |inputs|);
    }
  }

  /** A single list comes back unchanged. */
  lemma SingleInput(xs: seq<string>)
    ensures Intersection([Some(xs)]) == Ok(xs)
  {
  }

  /**
   * The common elements: exactly the elements of `xs` found in every other
   * list, each as often as in `xs`, in the order of `xs`.
   */
  lemma {:induction false} CommonMembers(xs: seq<string>, inputs: seq<Option<seq<string>>>, n: nat, x: string)
    requires n <= |inputs|
    ensures x in Common(xs, inputs, n) <==> x in xs && InAll(x, inputs, n)
    ensures multiset(Common(xs, inputs, n))[x] == if InAll(x, inputs, n) then multiset(xs)[x] else 0
  {
    if xs != [] {
      CommonMembers(xs[1..], inputs, n, x);
      assert xs == [xs[0]] + xs[1..];
    }
  }

  lemma {:induction false} CommonIsSubsequence(xs: seq<string>, inputs: seq<Option<seq<string>>>, n: nat)
    requires n <= |inputs|
    ensures IsSubsequence(Common(xs, inputs, n), xs)
  {
    if xs != [] {
      CommonIsSubsequence(xs[1..], inputs, n);
      var rest := Common(xs[1..], inputs, n);
      if InAll(xs[0], inputs, n) {
        assert Common(xs, inputs, n) == [xs[0]] + rest;
        assert ([xs[0]] + rest)[1..] == rest;
      } else {
        assert Common(xs, inputs, n) == rest;
      }
    }
  }
}
