/** Shared vocabulary: optional values, the error replies of the route
    handlers, and a few sequence functions the controllers use. */
module Common {

  /** A database object id. Ids are compared for equality only. */
  type ObjectId = nat

  datatype Option<T> = None | Some(value: T)

  /** The error side of a route handler: the HTTP status it answers with. */
  datatype Failure = BadRequest | Unauthorized | NotFound | ServerError {
    function Code(): (c: int)
      ensures 400 <= c < 600
      ensures c == 400 <==> this == BadRequest
      ensures c == 401 <==> this == Unauthorized
      ensures c == 404 <==> this == NotFound
      ensures c == 500 <==> this == ServerError
    {
      match this
      case BadRequest => 400
      case Unauthorized => 401
      case NotFound => 404
      case ServerError => 500
    }
  }

  /** What a handler answers: a value on success, or a failure status. */
  datatype Result<T> = Ok(value: T) | Err(failure: Failure)

  /** `Math.max(x, 0)`. */
  function ClampAtZero(x: int): (r: int) {
    if x > 0 then x else 0
  }

  function Min(a: int, b: int): (r: int) {
    if a <= b then a else b
  }

  /** The elements of `s` in the opposite order (JavaScript's `reverse`). */
  function Reverse<T>(s: seq<T>): (r: seq<T>)
    ensures |r| == |s|
    ensures forall i :: 0 <= i < |s| ==> r[i] == s[|s| - 1 - i]
    ensures multiset(r) == multiset(s)
  {
    if s == [] then [] else
      var rest := Reverse(s[1..]);
      assert s == [s[0]] + s[1..];
      rest + [s[0]]
  }

  /** The elements of `s` that satisfy `keep`, in their original order
      (JavaScript's `filter`, or a database `find` on a field). */
  function Filter<T(!new)>(s: seq<T>, keep: T -> bool): (r: seq<T>)
    ensures |r| <= |s|
    ensures forall x :: x in r <==> x in s && keep(x)
  {
    if s == [] then [] else
      var init := Filter(s[..|s| - 1], keep);
      assert forall x :: x in s <==> x in s[..|s| - 1] || x == s[|s| - 1];
      if keep(s[|s| - 1]) then init + [s[|s| - 1]] else init
  }

  /** How many elements of `s` satisfy `keep` (`filter(...).length`). */
  function Count<T>(s: seq<T>, keep: T -> bool): (n: nat)
    ensures n <= |s|
    ensures n == 0 <==> forall i :: 0 <= i < |s| ==> !keep(s[i])
    ensures n == |s| <==> forall i :: 0 <= i < |s| ==> keep(s[i])
  {
    if s == [] then 0 else
      var tail := Count(s[1..], keep);
      assert forall i :: 1 <= i < |s| ==> s[i] == s[1..][i - 1];
      (if keep(s[0]) then 1 else 0) + tail
  }

  /** Counting is the length of the filtered sequence. */
  lemma {:induction false} CountFilter<T(!new)>(s: seq<T>, keep: T -> bool)
    ensures Count(s, keep) == |Filter(s, keep)|
  {
    if s != [] {
      CountFilter(s[1..], keep);
      FilterCons(s, keep);
    }
  }

  /** Filtering a non-empty sequence: its head, if kept, then the filtered tail. */
  lemma {:induction false} FilterCons<T(!new)>(s: seq<T>, keep: T -> bool)
    requires s != []
    ensures Filter(s, keep) == (if keep(s[0]) then [s[0]] else []) + Filter(s[1..], keep)
    decreases |s|
  {
    if |s| > 1 {
      var init := s[..|s| - 1];
      FilterCons(init, keep);
      assert init[1..] == s[1..][..|s[1..]| - 1];
      assert s[1..][|s[1..]| - 1] == s[|s| - 1];
    } else {
      assert s[..|s| - 1] == [];
      assert s[1..] == [];
    }
  }

  /** The index of the first element satisfying `hit`: what a database
      `findOne` returns when documents are kept in insertion order. */
  function FirstIndex<T>(s: seq<T>, hit: T -> bool): (r: Option<nat>)
    ensures r.None? <==> forall i :: 0 <= i < |s| ==> !hit(s[i])
    ensures r.Some? ==> r.value < |s| && hit(s[r.value])
    ensures r.Some? ==> forall j :: 0 <= j < r.value ==> !hit(s[j])
  {
    if s == [] then None
    else if hit(s[0]) then Some(0)
    else
      match FirstIndex(s[1..], hit)
      case None => None
      case Some(k) => Some(k + 1)
  }
}
