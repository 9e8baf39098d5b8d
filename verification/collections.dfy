/**
 * The list idioms every page of the suite repeats on its React state:
 * `find`/`findIndex` by id, `map(x => x.id === id ? … : x)`,
 * `filter(x => x.id !== id)`, `filter(p).length` and `reduce((s, x) => s + f(x), 0)`.
 * They are stated once here, generically over the record type and the way
 * its key is read, and each page instantiates them with its own record.
 */
module Collections {

  datatype Option<T> = None | Some(value: T)

  /** Some element of `xs` has key `k`. */
  predicate HasKey<T>(xs: seq<T>, key: T -> string, k: string) {
    exists i :: 0 <= i < |xs| && key(xs[i]) == k
  }

  /** No two elements of `xs` share a key. */
  predicate DistinctKeys<T>(xs: seq<T>, key: T -> string) {
    forall i, j :: 0 <= i < j < |xs| ==> key(xs[i]) != key(xs[j])
  }

  /** `xs.findIndex(x => key(x) === k)`: the first position with key `k`, or -1. */
  function FindIndex<T>(xs: seq<T>, key: T -> string, k: string): (r: int)
    ensures -1 <= r < |xs|
    ensures r == -1 <==> !HasKey(xs, key, k)
    ensures r >= 0 ==> key(xs[r]) == k && forall j :: 0 <= j < r ==> key(xs[j]) != k
  {
    if xs == [] then -1
    else if key(xs[0]) == k then 0
    else
      var r := FindIndex(xs[1..], key, k);
      assert HasKey(xs[1..], key, k) ==> HasKey(xs, key, k) by {
        if HasKey(xs[1..], key, k) {
          var i :| 0 <= i < |xs[1..]| && key(xs[1..][i]) == k;
          assert key(xs[i + 1]) == k;
        }
      }
      if r == -1 then -1 else r + 1
  }

  /** Appending one element: the key is present iff it was already, or the new element has it. */
  lemma HasKeySnoc<T>(xs: seq<T>, x: T, key: T -> string, k: string)
    ensures HasKey(xs + [x], key, k) <==> HasKey(xs, key, k) || key(x) == k
  {
    if HasKey(xs, key, k) {
      var i :| 0 <= i < |xs| && key(xs[i]) == k;
      assert (xs + [x])[i] == xs[i];
    }
    if HasKey(xs + [x], key, k) && key(x) != k {
      var i :| 0 <= i < |xs + [x]| && key((xs + [x])[i]) == k;
      assert xs[i] == (xs + [x])[i];
    }
    if key(x) == k {
      assert (xs + [x])[|xs|] == x;
    }
  }

  /** Appending one element leaves the first position of a present key where it was, and puts a new key last. */
  lemma FindIndexSnoc<T>(xs: seq<T>, x: T, key: T -> string, k: string)
    ensures HasKey(xs, key, k) ==> FindIndex(xs + [x], key, k) == FindIndex(xs, key, k)
    ensures !HasKey(xs, key, k) && key(x) == k ==> FindIndex(xs + [x], key, k) == |xs|
  {
    HasKeySnoc(xs, x, key, k);
    var ys := xs + [x];
    var r := FindIndex(ys, key, k);
    if HasKey(xs, key, k) {
      var i := FindIndex(xs, key, k);
      assert ys[i] == xs[i];
      assert r <= i;
      assert ys[r] == xs[r];
    } else if key(x) == k {
      assert ys[|xs|] == x;
      forall j | 0 <= j < |xs| ensures key(ys[j]) != k {
        assert ys[j] == xs[j];
      }
    }
  }

  /** `xs.find(x => key(x) === k)`: the first element with key `k`, if any. */
  function Find<T>(xs: seq<T>, key: T -> string, k: string): (r: Option<T>)
    ensures r.None? <==> !HasKey(xs, key, k)
    ensures r.Some? ==> r.value == xs[FindIndex(xs, key, k)] && key(r.value) == k
  {
    var i := FindIndex(xs, key, k);
    if i < 0 then None else Some(xs[i])
  }

  /** `xs.map(x => key(x) === k ? f(x) : x)`. */
  function UpdateWhere<T>(xs: seq<T>, key: T -> string, k: string, f: T -> T): (r: seq<T>)
    ensures |r| == |xs|
    ensures forall i :: 0 <= i < |xs| && key(xs[i]) == k ==> r[i] == f(xs[i])
    ensures forall i :: 0 <= i < |xs| && key(xs[i]) != k ==> r[i] == xs[i]
  {
    if xs == [] then []
    else [if key(xs[0]) == k then f(xs[0]) else xs[0]] + UpdateWhere(xs[1..], key, k, f)
  }

  /** Updating a key nobody has changes nothing. */
  lemma UpdateMissing<T>(xs: seq<T>, key: T -> string, k: string, f: T -> T)
    requires !HasKey(xs, key, k)
    ensures UpdateWhere(xs, key, k, f) == xs
  {
    var r := UpdateWhere(xs, key, k, f);
    forall i | 0 <= i < |xs| ensures r[i] == xs[i] {
      assert key(xs[i]) != k;
    }
  }

  /** An update that keeps each touched element's key keeps every key in place. */
  lemma UpdateKeepsKeys<T>(xs: seq<T>, key: T -> string, k: string, f: T -> T)
    requires forall x :: key(x) == k ==> key(f(x)) == k
    ensures forall i :: 0 <= i < |xs| ==> key(UpdateWhere(xs, key, k, f)[i]) == key(xs[i])
    ensures DistinctKeys(xs, key) ==> DistinctKeys(UpdateWhere(xs, key, k, f), key)
  {
  }

  /** The number of elements of `xs` with key `k`. */
  function CountKey<T>(xs: seq<T>, key: T -> string, k: string): nat {
    if xs == [] then 0 else (if key(xs[0]) == k then 1 else 0) + CountKey(xs[1..], key, k)
  }

  /** `xs.filter(x => key(x) !== k)`. */
  function RemoveWhere<T(==)>(xs: seq<T>, key: T -> string, k: string): (r: seq<T>)
    ensures |r| == |xs| - CountKey(xs, key, k)
    ensures forall i :: 0 <= i < |r| ==> r[i] in xs && key(r[i]) != k
    ensures forall i :: 0 <= i < |xs| && key(xs[i]) != k ==> xs[i] in r
  {
    if xs == [] then []
    else if key(xs[0]) == k then RemoveWhere(xs[1..], key, k)
    else [xs[0]] + RemoveWhere(xs[1..], key, k)
  }

  /** Removal works piecewise, so the survivors keep their relative order. */
  lemma {:induction false} RemoveConcat<T>(a: seq<T>, b: seq<T>, key: T -> string, k: string)
    ensures RemoveWhere(a + b, key, k) == RemoveWhere(a, key, k) + RemoveWhere(b, key, k)
  {
    if a != [] {
      assert (a + b)[1..] == a[1..] + b;
      RemoveConcat(a[1..], b, key, k);
    } else {
      assert a + b == b;
    }
  }

  /** Removing a key nobody has changes nothing. */
  lemma {:induction false} RemoveMissing<T>(xs: seq<T>, key: T -> string, k: string)
    requires !HasKey(xs, key, k)
    ensures RemoveWhere(xs, key, k) == xs
  {
    if xs != [] {
      assert key(xs[0]) != k;
      forall i | 0 <= i < |xs[1..]| ensures key(xs[1..][i]) != k {
        assert xs[1..][i] == xs[i + 1];
      }
      RemoveMissing(xs[1..], key, k);
      assert xs == [xs[0]] + xs[1..];
    }
  }

  /**
   * Removing the key of the one element that has it takes out exactly that
   * element and leaves the others in their order.
   */
  lemma RemoveOne<T>(a: seq<T>, x: T, b: seq<T>, key: T -> string)
    requires !HasKey(a, key, key(x)) && !HasKey(b, key, key(x))
    ensures RemoveWhere(a + [x] + b, key, key(x)) == a + b
  {
    var k := key(x);
    var ax := a + [x];
    RemoveConcat(ax, b, key, k);
    RemoveConcat(a, [x], key, k);
    RemoveMissing(a, key, k);
    RemoveMissing(b, key, k);
    assert RemoveWhere([x], key, k) == [] by {
      assert [x][1..] == [];
    }
    assert RemoveWhere(ax, key, k) == a;
  }

  /** Updating the key of the one element that has it rewrites that element only, in place. */
  lemma UpdateOne<T>(a: seq<T>, x: T, b: seq<T>, key: T -> string, f: T -> T)
    requires !HasKey(a, key, key(x)) && !HasKey(b, key, key(x))
    ensures UpdateWhere(a + [x] + b, key, key(x), f) == a + [f(x)] + b
  {
    var s := a + [x] + b;
    var r := UpdateWhere(s, key, key(x), f);
    forall i | 0 <= i < |s| ensures r[i] == (a + [f(x)] + b)[i] {
      if i < |a| {
        assert s[i] == a[i];
      } else if i > |a| {
        assert s[i] == b[i - |a| - 1];
      }
    }
  }

  /** Removing twice is removing once. */
  lemma RemoveIdempotent<T>(xs: seq<T>, key: T -> string, k: string)
    ensures RemoveWhere(RemoveWhere(xs, key, k), key, k) == RemoveWhere(xs, key, k)
  {
    var r := RemoveWhere(xs, key, k);
    RemoveMissing(r, key, k);
  }

  /** Removal keeps distinct keys distinct. */
  lemma {:induction false} RemoveKeepsDistinct<T>(xs: seq<T>, key: T -> string, k: string)
    requires DistinctKeys(xs, key)
    ensures DistinctKeys(RemoveWhere(xs, key, k), key)
  {
    if xs != [] {
      RemoveKeepsDistinct(xs[1..], key, k);
      var rest := RemoveWhere(xs[1..], key, k);
      if key(xs[0]) != k {
        forall m | 0 <= m < |rest| ensures key(rest[m]) != key(xs[0]) {
          assert rest[m] in xs[1..];
          var j :| 0 <= j < |xs[1..]| && xs[1..][j] == rest[m];
          assert xs[j + 1] == rest[m];
        }
        var r := [xs[0]] + rest;
        forall i, j | 0 <= i < j < |r| ensures key(r[i]) != key(r[j]) {
          if i == 0 {
            assert r[j] == rest[j - 1];
          } else {
            assert r[i] == rest[i - 1] && r[j] == rest[j - 1];
          }
        }
      }
    }
  }

  /** `xs.filter(p)`. */
  function Filter<T(==)>(xs: seq<T>, p: T -> bool): (r: seq<T>)
    ensures |r| == CountWhere(xs, p)
  {
    if xs == [] then []
    else if p(xs[0]) then [xs[0]] + Filter(xs[1..], p)
    else Filter(xs[1..], p)
  }

  /** The filter keeps exactly the elements that pass, and only elements of the list. */
  lemma {:induction false} FilterMembers<T>(xs: seq<T>, p: T -> bool)
    ensures forall x :: x in Filter(xs, p) <==> x in xs && p(x)
  {
    if xs != [] {
      FilterMembers(xs[1..], p);
      assert xs == [xs[0]] + xs[1..];
    }
  }

  /** Filtering works piecewise, so the kept elements stay in their stored order. */
  lemma {:induction false} FilterConcat<T>(a: seq<T>, b: seq<T>, p: T -> bool)
    ensures Filter(a + b, p) == Filter(a, p) + Filter(b, p)
  {
    if a != [] {
      assert (a + b)[1..] == a[1..] + b;
      FilterConcat(a[1..], b, p);
    } else {
      assert a + b == b;
    }
  }

  /** Filtering looks at the first element, then at the rest. */
  lemma FilterCons<T>(y: T, ys: seq<T>, p: T -> bool)
    ensures Filter([y] + ys, p) == (if p(y) then [y] else []) + Filter(ys, p)
  {
    assert ([y] + ys)[1..] == ys;
  }

  /** Filtering a list grown by one element grows the result by that element exactly when it passes. */
  lemma FilterSnoc<T>(xs: seq<T>, x: T, p: T -> bool)
    ensures Filter(xs + [x], p) == Filter(xs, p) + (if p(x) then [x] else [])
  {
    FilterConcat(xs, [x], p);
    FilterCons(x, [], p);
    assert [x] + [] == [x];
  }

  /** An element the filter drops, or one in front of nothing new, may move past the kept ones. */
  lemma FilterSwap<T>(s: seq<T>, rest: seq<T>, moved: seq<T>, p: T -> bool)
    requires s != [] && Filter(rest, p) == moved + Filter(s[1..], p)
    requires !p(s[0]) || moved == []
    ensures Filter([s[0]] + rest, p) == moved + Filter(s, p)
  {
    var tail := s[1..];
    assert s == [s[0]] + tail;
    FilterCons(s[0], rest, p);
    FilterCons(s[0], tail, p);
    if p(s[0]) {
      assert moved == [];
    } else {
      assert Filter(s, p) == Filter(tail, p);
    }
  }

  /** `xs.filter(p).length`. */
  function CountWhere<T>(xs: seq<T>, p: T -> bool): (n: nat)
    ensures n <= |xs|
  {
    if xs == [] then 0 else (if p(xs[0]) then 1 else 0) + CountWhere(xs[1..], p)
  }

  /** `xs.reduce((s, x) => s + f(x), 0)`. */
  function SumOf<T>(xs: seq<T>, f: T -> int): int {
    if xs == [] then 0 else f(xs[0]) + SumOf(xs[1..], f)
  }

  /** The sum splits over concatenation; it is what lets a fold run left to right. */
  lemma {:induction false} SumOfConcat<T>(a: seq<T>, b: seq<T>, f: T -> int)
    ensures SumOf(a + b, f) == SumOf(a, f) + SumOf(b, f)
  {
    if a != [] {
      assert (a + b)[1..] == a[1..] + b;
      SumOfConcat(a[1..], b, f);
    } else {
      assert a + b == b;
    }
  }

  /** An update that leaves the summed quantity of every element alone leaves the sum alone. */
  lemma {:induction false} UpdateKeepsSum<T>(xs: seq<T>, key: T -> string, k: string, f: T -> T, g: T -> int)
    requires forall x :: g(f(x)) == g(x)
    ensures SumOf(UpdateWhere(xs, key, k, f), g) == SumOf(xs, g)
  {
    if xs != [] {
      UpdateKeepsSum(xs[1..], key, k, f, g);
      assert UpdateWhere(xs, key, k, f)[1..] == UpdateWhere(xs[1..], key, k, f);
    }
  }

  /** The count splits over concatenation. */
  lemma {:induction false} CountWhereConcat<T>(a: seq<T>, b: seq<T>, p: T -> bool)
    ensures CountWhere(a + b, p) == CountWhere(a, p) + CountWhere(b, p)
  {
    if a != [] {
      assert (a + b)[1..] == a[1..] + b;
      CountWhereConcat(a[1..], b, p);
    } else {
      assert a + b == b;
    }
  }

  /** The positions of the elements that pass `p`. */
  function IndicesWhere<T>(xs: seq<T>, p: T -> bool): set<int> {
    set i | 0 <= i < |xs| && p(xs[i])
  }

  /** `xs.filter(p).length` counts the positions whose element passes. */
  lemma {:induction false} CountWhereIndices<T>(xs: seq<T>, p: T -> bool)
    ensures CountWhere(xs, p) == |IndicesWhere(xs, p)|
    decreases |xs|
  {
    if xs == [] {
      assert IndicesWhere(xs, p) == {};
    } else {
      var a := xs[..|xs| - 1];
      var x := xs[|xs| - 1];
      assert xs == a + [x];
      CountWhereIndices(a, p);
      CountWhereConcat(a, [x], p);
      assert CountWhere([x], p) == (if p(x) then 1 else 0) by {
        assert [x][1..] == [];
      }
      var last: set<int> := if p(x) then {|a|} else {};
      assert IndicesWhere(xs, p) == IndicesWhere(a, p) + last;
      assert |a| !in IndicesWhere(a, p);
    }
  }
}
