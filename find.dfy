/** The `find` utility of libs/utils: the first element of a list that
    satisfies a predicate, falling back to an optional default and
    throwing when there is neither a match nor a default. */
module Find {
  import opened Wrappers
  import Seqs

  /** The error `find` throws; its message text is not part of this model. */
  datatype FindError = NoMatch

  /** True when some element of `xs` satisfies `p`. */
  predicate HasMatch<T>(xs: seq<T>, p: T -> bool) {
    exists i :: 0 <= i < |xs| && p(xs[i])
  }

  /** `find(xs, p, default)`; `default == None` is a call without a default. */
  function Find<T>(xs: seq<T>, p: T -> bool, default: Option<T>): (r: Result<T, FindError>)
    ensures r.Ok? <==> HasMatch(xs, p) || default.Some?
  {
    if xs == [] then
      (if default.Some? then Ok(default.value) else Err(NoMatch))
    else if p(xs[0]) then
      Ok(xs[0])
    else
      assert forall i :: 1 <= i < |xs| ==> xs[i] == xs[1..][i - 1];
      Find(xs[1..], p, default)
  }

  /** A match is the FIRST element satisfying the predicate. */
  lemma {:induction false} FindReturnsFirstMatch<T>(xs: seq<T>, p: T -> bool, default: Option<T>, k: nat)
    requires k < |xs| && p(xs[k])
    requires forall j :: 0 <= j < k ==> !p(xs[j])
    ensures Find(xs, p, default) == Ok(xs[k])
  {
    if k > 0 {
      FindReturnsFirstMatch(xs[1..], p, default, k - 1);
    }
  }

  /** Without any match the default is returned, or an error is raised. */
  lemma {:induction false} FindWithoutMatch<T>(xs: seq<T>, p: T -> bool, default: Option<T>)
    requires forall j :: 0 <= j < |xs| ==> !p(xs[j])
    ensures default.Some? ==> Find(xs, p, default) == Ok(default.value)
    ensures default.None? ==> Find(xs, p, default).Err?
  {
    if xs != [] {
      FindWithoutMatch(xs[1..], p, default);
    }
  }

  /** Whatever is returned satisfies the predicate or is the default. */
  lemma {:induction false} FindResultSatisfies<T>(xs: seq<T>, p: T -> bool, default: Option<T>)
    ensures Find(xs, p, default).Ok? ==>
      var v := Find(xs, p, default).value;
      (v in xs && p(v)) || (default.Some? && v == default.value)
  {
    if xs != [] && !p(xs[0]) {
      FindResultSatisfies(xs[1..], p, default);
    }
  }

  /** The four cases of the unit test of `find`. */
  lemma FindTestCases()
    ensures Find([1, 2, 3, 4], (n: int) => n > 2, Some(10)) == Ok(3)
    ensures Find([1, 2, 3, 4], (n: int) => n > 20, Some(10)) == Ok(10)
    ensures Find(["mirrorball", "daylight"], (s: string) => s == "mirrorball", None) == Ok("mirrorball")
    ensures Find(["mirrorball", "daylight"], (s: string) => s == "", None).Err?
  {
    FindReturnsFirstMatch([1, 2, 3, 4], (n: int) => n > 2, Some(10), 2);
    FindWithoutMatch([1, 2, 3, 4], (n: int) => n > 20, Some(10));
    FindWithoutMatch(["mirrorball", "daylight"], (s: string) => s == "", None);
  }

  /** Without a default, `find` is the built-in `Array.prototype.find`
      with `undefined` turned into the error. */
  lemma {:induction false} FindAgreesWithFindFirst<T>(xs: seq<T>, p: T -> bool)
    ensures Seqs.FindFirst(xs, p).Some? ==> Find(xs, p, None) == Ok(Seqs.FindFirst(xs, p).value)
    ensures Seqs.FindFirst(xs, p).None? ==> Find(xs, p, None) == Err(NoMatch)
  {
    if xs != [] && !p(xs[0]) {
      FindAgreesWithFindFirst(xs[1..], p);
    }
  }
}
