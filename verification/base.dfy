/** Shared vocabulary of the model: timestamps, optional values, results,
    and the few sequence operations the store and the poller are built from. */
module Base {

  /** A UTC instant, in whole seconds since the Unix epoch. The source keeps
      timezone-aware datetimes and ISO-8601 strings; only their order and
      their differences matter here. */
  type Time = int

  datatype Option<+T> = None | Some(value: T) {
    function GetOr(default: T): T {
      match this
      case Some(v) => v
      case None => default
    }
  }

  datatype Result<+T, +E> = Success(value: T) | Failure(error: E)

  /** What an HTTP route hands back: a success status with its body, or the
      status and `detail` of the `HTTPException` it raised. */
  datatype Response<+T> = Ok(status: int, body: T) | Rejected(status: int, detail: string)

  /** `a` can be obtained from `b` by deleting elements: the greedy
      left-to-right matching is complete for subsequences. */
  predicate Subsequence<T(==)>(a: seq<T>, b: seq<T>)
    decreases |b|
  {
    if a == [] then true
    else if b == [] then false
    else if a[0] == b[0] then Subsequence(a[1..], b[1..])
    else Subsequence(a, b[1..])
  }

  /** The elements of `s` that satisfy `p`, in their original order, each
      kept as often as it occurs. */
  function Filter<T(==,!new)>(s: seq<T>, p: T -> bool): (r: seq<T>)
    ensures |r| <= |s|
    ensures forall i :: 0 <= i < |r| ==> r[i] in s && p(r[i])
    ensures forall i :: 0 <= i < |s| && p(s[i]) ==> s[i] in r
    ensures forall x :: multiset(r)[x] == if p(x) then multiset(s)[x] else 0
    ensures Subsequence(r, s)
    decreases |s|
  {
    if s == [] then []
    else
      assert s == [s[0]] + s[1..];
      if p(s[0]) then [s[0]] + Filter(s[1..], p)
      else
        var rest := Filter(s[1..], p);
        assert rest != [] ==> rest[0] in rest && rest[0] != s[0];
        rest
  }

  /** Filtering depends only on what the predicate says about the elements
      actually present. */
  lemma {:induction false} FilterAgrees<T(!new)>(s: seq<T>, p: T -> bool, q: T -> bool)
    requires forall i :: 0 <= i < |s| ==> p(s[i]) == q(s[i])
    ensures Filter(s, p) == Filter(s, q)
    decreases |s|
  {
    if s != [] {
      FilterAgrees(s[1..], p, q);
    }
  }

  /** The concatenation of the sequences in `ss`, in order. */
  function Flatten<T>(ss: seq<seq<T>>): seq<T>
    decreases |ss|
  {
    if ss == [] then [] else ss[0] + Flatten(ss[1..])
  }
}
