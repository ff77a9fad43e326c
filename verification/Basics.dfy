/** Shared vocabulary: optional values, the order of Python strings, sorting of
    finite id sets, and sums over finite sets. */
module Basics {

  type Id = string

  datatype Option<+T> = None | Some(value: T)

  /** Python truthiness of an optional string: neither None nor "". */
  predicate Truthy(o: Option<string>) {
    o.Some? && o.value != ""
  }

  predicate Distinct<T(==)>(s: seq<T>) {
    forall i, j :: 0 <= i < j < |s| ==> s[i] != s[j]
  }

  function SetOf<T>(s: seq<T>): set<T> {
    set x | x in s
  }

  lemma SetOfAppend<T>(s: seq<T>, x: T)
    ensures SetOf(s + [x]) == SetOf(s) + {x}
  {}

  lemma {:induction false} DistinctSize<T>(s: seq<T>)
    requires Distinct(s)
    ensures |SetOf(s)| == |s|
  {
    if s == [] {
      assert SetOf(s) == {};
    } else {
      var n := |s| - 1;
      DistinctSize(s[..n]);
      assert s == s[..n] + [s[n]];
      assert SetOf(s) == SetOf(s[..n]) + {s[n]};
    }
  }

  lemma SubsetSize<T>(a: set<T>, b: set<T>)
    requires a <= b
    ensures |a| <= |b|
    ensures |a| == |b| ==> a == b
  {
    assert b == a + (b - a);
  }

  // ---------------------------------------------------------------- ordering

  /** Python's order of strings: lexicographic by code point. */
  predicate LexLeq(a: string, b: string) {
    a == [] || (b != [] && (a[0] < b[0] || (a[0] == b[0] && LexLeq(a[1..], b[1..]))))
  }

  ghost predicate TotalOrder(leq: (Id, Id) -> bool) {
    && (forall a, b :: leq(a, b) || leq(b, a))
    && (forall a, b :: leq(a, b) && leq(b, a) ==> a == b)
    && (forall a, b, c :: leq(a, b) && leq(b, c) ==> leq(a, c))
  }

  lemma {:induction false} LexTotal(a: string, b: string)
    ensures LexLeq(a, b) || LexLeq(b, a)
    ensures LexLeq(a, b) && LexLeq(b, a) ==> a == b
  {
    if a != [] && b != [] && a[0] == b[0] {
      LexTotal(a[1..], b[1..]);
      assert a == [a[0]] + a[1..] && b == [b[0]] + b[1..];
    }
  }

  lemma {:induction false} LexTransitive(a: string, b: string, c: string)
    requires LexLeq(a, b) && LexLeq(b, c)
    ensures LexLeq(a, c)
  {
    if a != [] && a[0] == b[0] == c[0] {
      LexTransitive(a[1..], b[1..], c[1..]);
    }
  }

  lemma LexIsTotalOrder()
    ensures TotalOrder(LexLeq)
  {
    forall a, b ensures LexLeq(a, b) || LexLeq(b, a) {
      LexTotal(a, b);
    }
    forall a, b | LexLeq(a, b) && LexLeq(b, a) ensures a == b {
      LexTotal(a, b);
    }
    forall a, b, c | LexLeq(a, b) && LexLeq(b, c) ensures LexLeq(a, c) {
      LexTransitive(a, b, c);
    }
  }

  ghost predicate Least(m: Id, s: set<Id>, leq: (Id, Id) -> bool) {
    m in s && forall x | x in s :: leq(m, x)
  }

  lemma {:induction false} LeastExists(s: set<Id>, leq: (Id, Id) -> bool)
    requires s != {} && TotalOrder(leq)
    ensures exists m :: Least(m, s, leq)
    decreases s
  {
    var y :| y in s;
    if s == {y} {
      assert Least(y, s, leq);
    } else {
      LeastExists(s - {y}, leq);
      var m :| Least(m, s - {y}, leq);
      forall x | x in s ensures leq(if leq(m, y) then m else y, x) {
        if x != y {
          assert x in s - {y};
        }
      }
      assert Least(if leq(m, y) then m else y, s, leq);
    }
  }

  predicate SortedBy(r: seq<Id>, leq: (Id, Id) -> bool) {
    forall i, j :: 0 <= i < j < |r| ==> leq(r[i], r[j])
  }

  /** sorted(...) of a finite set of ids under a total order. */
  function Sorted(s: set<Id>, leq: (Id, Id) -> bool): (r: seq<Id>)
    requires TotalOrder(leq)
    ensures SetOf(r) == s && Distinct(r) && SortedBy(r, leq)
    decreases s
  {
    if s == {} then [] else
      LeastExists(s, leq);
      assert exists m :: m in s && forall x | x in s :: leq(m, x) by {
        var m :| Least(m, s, leq);
      }
      var m :| m in s && forall x | x in s :: leq(m, x);
      var rest := Sorted(s - {m}, leq);
      assert forall x :: x in rest <==> x in SetOf(rest);
      [m] + rest
  }

  /** A set has one sorted listing only, so any sorting routine returns it. */
  lemma {:induction false} SortedUnique(r: seq<Id>, s: seq<Id>, leq: (Id, Id) -> bool)
    requires TotalOrder(leq)
    requires Distinct(r) && Distinct(s) && SortedBy(r, leq) && SortedBy(s, leq)
    requires SetOf(r) == SetOf(s)
    ensures r == s
  {
    DistinctSize(r);
    DistinctSize(s);
    if r != [] {
      assert r[0] in SetOf(s) && s[0] in SetOf(r);
      var i :| 0 <= i < |s| && s[i] == r[0];
      var j :| 0 <= j < |r| && r[j] == s[0];
      assert r[0] == s[0];
      var r', s' := r[1..], s[1..];
      forall x ensures x in SetOf(r') <==> x in SetOf(s') {
        assert x in r' ==> x in r && x != r[0];
        assert x in s' ==> x in s && x != s[0];
        assert x in SetOf(r) <==> x in SetOf(s);
        if x in r && x != r[0] {
          assert x in r';
        }
        if x in s && x != s[0] {
          assert x in s';
        }
      }
      assert SetOf(r') == SetOf(s');
      SortedUnique(r', s', leq);
      assert r == [r[0]] + r' && s == [s[0]] + s';
    }
  }

  // -------------------------------------------------------------------- sums

  ghost function Sum<K>(s: set<K>, f: K -> int): int
  {
    if s == {} then 0 else
      var x :| x in s;
      f(x) + Sum(s - {x}, f)
  }

  lemma {:induction false} SumRemove<K>(s: set<K>, x: K, f: K -> int)
    requires x in s
    ensures Sum(s, f) == f(x) + Sum(s - {x}, f)
    decreases s
  {
    var y :| y in s && Sum(s, f) == f(y) + Sum(s - {y}, f);
    if y != x {
      SumRemove(s - {y}, x, f);
      SumRemove(s - {x}, y, f);
      assert s - {y} - {x} == s - {x} - {y};
    }
  }

  lemma {:induction false} SumCongruent<K>(s: set<K>, f: K -> int, g: K -> int)
    requires forall x | x in s :: f(x) == g(x)
    ensures Sum(s, f) == Sum(s, g)
    decreases s
  {
    if s != {} {
      var x :| x in s;
      SumRemove(s, x, f);
      SumRemove(s, x, g);
      SumCongruent(s - {x}, f, g);
    }
  }

  lemma {:induction false} SumUnion<K>(a: set<K>, b: set<K>, f: K -> int)
    requires a !! b
    ensures Sum(a + b, f) == Sum(a, f) + Sum(b, f)
    decreases b
  {
    if b == {} {
      assert a + b == a;
    } else {
      var x :| x in b;
      SumRemove(b, x, f);
      SumRemove(a + b, x, f);
      assert a + b - {x} == a + (b - {x});
      SumUnion(a, b - {x}, f);
    }
  }

  lemma {:induction false} SumIsNat<K>(s: set<K>, f: K -> int)
    requires forall x | x in s :: f(x) >= 0
    ensures Sum(s, f) >= 0
    decreases s
  {
    if s != {} {
      var x :| x in s;
      SumRemove(s, x, f);
      SumIsNat(s - {x}, f);
    }
  }

  lemma {:induction false} SumAtMost<K>(s: set<K>, f: K -> int, bound: int)
    requires forall x | x in s :: f(x) <= bound
    ensures Sum(s, f) <= |s| * bound
    decreases s
  {
    if s != {} {
      var x :| x in s;
      SumRemove(s, x, f);
      SumAtMost(s - {x}, f, bound);
      assert |s| * bound == |s - {x}| * bound + bound;
    }
  }

  lemma {:induction false} SumConstant<K>(s: set<K>, f: K -> int, each: int)
    requires forall x | x in s :: f(x) == each
    ensures Sum(s, f) == |s| * each
    decreases s
  {
    if s != {} {
      var x :| x in s;
      SumRemove(s, x, f);
      SumConstant(s - {x}, f, each);
      assert |s| * each == |s - {x}| * each + each;
    }
  }
}
