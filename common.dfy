/** Shared vocabulary of the model: optional values, endpoint outcomes carrying
    an HTTP status code, and the three collection queries the backend performs
    against its document store (filtered find, find_one, count_documents). */
module Common {

  datatype Option<T> = None | Some(value: T)

  /** The outcome of an endpoint: a value, or the status code of the
      HTTPException that the endpoint raises. */
  datatype Result<T> = Ok(value: T) | Err(status: int)

  const BAD_REQUEST := 400
  const UNAUTHORIZED := 401
  const FORBIDDEN := 403
  const NOT_FOUND := 404
  /** FastAPI's answer to an exception the endpoint does not handle. */
  const INTERNAL_SERVER_ERROR := 500

  /** Python truthiness of an optional string parameter (`if family_id:`):
      both `None` and the empty string are false. */
  predicate Given(o: Option<string>) {
    o.Some? && o.value != ""
  }

  /** The records of `s` that satisfy `p`, in store order (a `find(query)`). */
  function Filter<T(!new)>(p: T -> bool, s: seq<T>): (r: seq<T>)
    ensures |r| <= |s|
    ensures forall x :: x in r <==> x in s && p(x)
    ensures forall i :: 0 <= i < |r| ==> p(r[i])
  {
    if s == [] then []
    else (if p(s[0]) then [s[0]] else []) + Filter(p, s[1..])
  }

  /** Filtering a store that grows by one record at its end. */
  lemma {:induction false} FilterAppend<T(!new)>(p: T -> bool, s: seq<T>, x: T)
    ensures Filter(p, s + [x]) == Filter(p, s) + (if p(x) then [x] else [])
  {
    if s == [] {
      assert s + [x] == [x];
    } else {
      assert (s + [x])[1..] == s[1..] + [x];
      FilterAppend(p, s[1..], x);
    }
  }

  /** Two selections that agree on every record select the same records. */
  lemma {:induction false} FilterExt<T(!new)>(p: T -> bool, q: T -> bool, s: seq<T>)
    requires forall i :: 0 <= i < |s| ==> p(s[i]) == q(s[i])
    ensures Filter(p, s) == Filter(q, s)
  {
    if s != [] {
      FilterExt(p, q, s[1..]);
    }
  }

  /** Selecting with `q` after selecting with `p` is selecting with both. */
  lemma {:induction false} FilterFilter<T(!new)>(p: T -> bool, q: T -> bool, pq: T -> bool, s: seq<T>)
    requires forall i :: 0 <= i < |s| ==> pq(s[i]) == (p(s[i]) && q(s[i]))
    ensures Filter(q, Filter(p, s)) == Filter(pq, s)
  {
    if s != [] {
      var rest := Filter(p, s[1..]);
      FilterFilter(p, q, pq, s[1..]);
      if p(s[0]) {
        var f := [s[0]] + rest;
        assert Filter(p, s) == f;
        assert f[0] == s[0] && f[1..] == rest;
        assert Filter(q, f) == (if q(s[0]) then [s[0]] else []) + Filter(q, rest);
      } else {
        assert Filter(p, s) == rest;
      }
    }
  }

  /** Every record of a rearrangement of a selection passes the selection. */
  lemma FilterRearranged<T(!new)>(p: T -> bool, s: seq<T>, r: seq<T>)
    requires multiset(r) == multiset(Filter(p, s))
    ensures forall i :: 0 <= i < |r| ==> p(r[i])
  {
    forall i | 0 <= i < |r| ensures p(r[i]) {
      assert r[i] in multiset(Filter(p, s));
    }
  }

  /** A selection that every record passes keeps the whole store. */
  lemma {:induction false} FilterAll<T(!new)>(p: T -> bool, s: seq<T>)
    requires forall i :: 0 <= i < |s| ==> p(s[i])
    ensures Filter(p, s) == s
  {
    if s != [] {
      FilterAll(p, s[1..]);
    }
  }

  /** The first record of `s` that satisfies `p` (a `find_one(query)`). */
  function Find<T(!new)>(p: T -> bool, s: seq<T>): (r: Option<T>)
    ensures r.None? <==> forall i :: 0 <= i < |s| ==> !p(s[i])
    ensures r.Some? ==> exists i :: 0 <= i < |s| && s[i] == r.value && p(s[i]) &&
                                    forall j :: 0 <= j < i ==> !p(s[j])
  {
    if s == [] then None
    else if p(s[0]) then Some(s[0])
    else
      var r := Find(p, s[1..]);
      assert r.Some? ==> exists i :: 1 <= i < |s| && s[i] == r.value && p(s[i]) &&
                                     forall j :: 0 <= j < i ==> !p(s[j]) by {
        if r.Some? {
          var k :| 0 <= k < |s[1..]| && s[1..][k] == r.value && p(s[1..][k]) &&
                   forall j :: 0 <= j < k ==> !p(s[1..][j]);
          assert forall j :: 0 <= j < k + 1 ==> !p(s[j]) by {
            forall j | 0 <= j < k + 1 ensures !p(s[j]) {
              if j > 0 { assert s[j] == s[1..][j - 1]; }
            }
          }
        }
      }
      r
  }

  /** When record `i` is the first that satisfies `p`, `Find` returns it. */
  lemma FindFirst<T(!new)>(p: T -> bool, s: seq<T>, i: int)
    requires 0 <= i < |s| && p(s[i])
    requires forall j :: 0 <= j < i ==> !p(s[j])
    ensures Find(p, s) == Some(s[i])
  {
    var r := Find(p, s);
    var k :| 0 <= k < |s| && s[k] == r.value && p(s[k]) && forall j :: 0 <= j < k ==> !p(s[j]);
    assert !(k < i) && !(i < k);
  }

  /** How many records of `s` satisfy `p` (a `count_documents(query)`). */
  function Count<T(!new)>(p: T -> bool, s: seq<T>): (n: nat)
    ensures n <= |s|
    ensures n == |Filter(p, s)|
  {
    if s == [] then 0
    else (if p(s[0]) then 1 else 0) + Count(p, s[1..])
  }

  /** A positive count means that some record matches, and conversely. */
  lemma {:induction false} CountPositive<T(!new)>(p: T -> bool, s: seq<T>)
    ensures Count(p, s) > 0 <==> exists i :: 0 <= i < |s| && p(s[i])
  {
    if s != [] {
      CountPositive(p, s[1..]);
      if !p(s[0]) && (exists i :: 0 <= i < |s| && p(s[i])) {
        var i :| 0 <= i < |s| && p(s[i]);
        assert s[1..][i - 1] == s[i];
      }
    }
  }

  /** Counting over a store that grows by one record at its end. */
  lemma {:induction false} CountAppend<T(!new)>(p: T -> bool, s: seq<T>, x: T)
    ensures Count(p, s + [x]) == Count(p, s) + (if p(x) then 1 else 0)
  {
    if s == [] {
      assert s + [x] == [x];
    } else {
      assert (s + [x])[1..] == s[1..] + [x];
      CountAppend(p, s[1..], x);
    }
  }
}
