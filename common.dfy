/** Small shared vocabulary: optional values, results, sequence filtering and
    store-assigned identifiers. */
module Common {

  /** Identifier of a row, assigned by the hosted store. */
  type Id = nat

  /** A value that may be absent: a null column or an argument not supplied. */
  datatype Option<T> = None | Some(value: T) {
    /** The value, or `default` when absent (JavaScript's `x || default` on a nullable number). */
    function GetOr(default: T): T {
      match this
      case Some(v) => v
      case None => default
    }
  }

  /** Outcome of an operation that can fail. */
  datatype Result<T, E> = Success(value: T) | Failure(error: E)

  function MaxReal(a: real, b: real): (r: real)
    ensures r >= a && r >= b && (r == a || r == b)
  {
    if a >= b then a else b
  }

  /** The elements of `s` that satisfy `keep`, in their original order
      (JavaScript's `Array.prototype.filter`). */
  function Filter<T(!new)>(s: seq<T>, keep: T -> bool): (r: seq<T>)
    ensures |r| <= |s|
    ensures forall x :: x in r <==> x in s && keep(x)
  {
    if s == [] then []
    else if keep(s[0]) then [s[0]] + Filter(s[1..], keep)
    else Filter(s[1..], keep)
  }

  /** Filtering distributes over concatenation; with the one-element case this
      pins down that the surviving elements keep their relative order. */
  lemma {:induction false} FilterAppend<T(!new)>(s: seq<T>, t: seq<T>, keep: T -> bool)
    ensures Filter(s + t, keep) == Filter(s, keep) + Filter(t, keep)
  {
    if s == [] {
      assert s + t == t;
    } else {
      assert (s + t)[1..] == s[1..] + t;
      FilterAppend(s[1..], t, keep);
    }
  }

  /** Filtering with a predicate every element satisfies changes nothing. */
  lemma {:induction false} FilterAll<T(!new)>(s: seq<T>, keep: T -> bool)
    requires forall k :: 0 <= k < |s| ==> keep(s[k])
    ensures Filter(s, keep) == s
  {
    if s != [] {
      FilterAll(s[1..], keep);
    }
  }

  /** Filtering with a predicate no element satisfies leaves nothing. */
  lemma {:induction false} FilterNone<T(!new)>(s: seq<T>, keep: T -> bool)
    requires forall k :: 0 <= k < |s| ==> !keep(s[k])
    ensures Filter(s, keep) == []
  {
    if s != [] {
      FilterNone(s[1..], keep);
    }
  }

  /** Filtering depends only on the verdicts on the elements present. */
  lemma {:induction false} FilterCongruent<T(!new)>(s: seq<T>, keep: T -> bool, keep': T -> bool)
    requires forall k :: 0 <= k < |s| ==> keep(s[k]) == keep'(s[k])
    ensures Filter(s, keep) == Filter(s, keep')
  {
    if s != [] {
      FilterCongruent(s[1..], keep, keep');
    }
  }

  /** Filtering out exactly one element, when every other passes, leaves the rest in order. */
  lemma {:induction false} FilterDropsOne<T(!new)>(a: seq<T>, x: T, b: seq<T>, keep: T -> bool)
    requires forall k :: 0 <= k < |a| ==> keep(a[k])
    requires forall k :: 0 <= k < |b| ==> keep(b[k])
    requires !keep(x)
    ensures Filter(a + [x] + b, keep) == a + b
  {
    assert Filter([x], keep) == [] by {
      assert [x][1..] == [];
    }
    FilterAppend(a, [x], keep);
    FilterAll(a, keep);
    assert Filter(a + [x], keep) == a;
    FilterAppend(a + [x], b, keep);
    FilterAll(b, keep);
  }

  /** A bound strictly above every identifier in `keys`. */
  ghost function IdBound(keys: set<Id>): (b: Id)
    ensures forall k :: k in keys ==> k < b
  {
    if keys == {} then 0
    else
      var x :| x in keys;
      var rest := IdBound(keys - {x});
      assert forall k :: k in keys ==> k == x || k in keys - {x};
      if rest > x then rest else x + 1
  }

  /** The store can always hand out an identifier not yet in use. */
  lemma FreshIdExists(keys: set<Id>)
    ensures exists id: Id :: id !in keys
  {
    var b := IdBound(keys);
    assert b !in keys;
  }
}
