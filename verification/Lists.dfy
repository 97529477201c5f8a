// Concatenating what each element of a list contributes.

module Lists {

  function FlatMap<A, B>(f: A -> seq<B>, s: seq<A>): seq<B> {
    if s == [] then [] else f(s[0]) + FlatMap(f, s[1..])
  }

  lemma Assoc<T>(a: seq<T>, b: seq<T>, c: seq<T>)
    ensures a + (b + c) == a + b + c
  {
  }

  lemma Interleave<T>(a: seq<T>, x: seq<T>, b: seq<T>, y: seq<T>, z: seq<T>)
    requires multiset(x + y) == multiset(z)
    ensures multiset(a + x + (b + y)) == multiset(a + b + z)
  {
    assert multiset(a + x + (b + y)) == multiset(a) + multiset(b) + multiset(x + y);
  }

  lemma FlatMapCons<A, B>(f: A -> seq<B>, e: A, s: seq<A>)
    ensures FlatMap(f, []) == []
    ensures FlatMap(f, [e] + s) == f(e) + FlatMap(f, s)
    ensures FlatMap(f, [e]) == f(e)
  {
    assert ([e] + s)[1..] == s;
    assert FlatMap(f, [e]) == f(e) + FlatMap(f, []);
  }

  lemma {:induction false} FlatMapConcat<A, B>(f: A -> seq<B>, a: seq<A>, b: seq<A>)
    ensures FlatMap(f, a + b) == FlatMap(f, a) + FlatMap(f, b)
  {
    if a == [] {
      assert a + b == b;
    } else {
      hide *;
      FlatMapCons(f, a[0], a[1..]);
      FlatMapCons(f, a[0], a[1..] + b);
      FlatMapConcat(f, a[1..], b);
      assert a == [a[0]] + a[1..] && a + b == [a[0]] + (a[1..] + b);
    }
  }

  lemma FlatMapMiddle<A, B>(f: A -> seq<B>, x: seq<A>, e: A, y: seq<A>)
    ensures multiset(FlatMap(f, x + [e] + y)) == multiset(f(e)) + multiset(FlatMap(f, x + y))
  {
    hide *;
    FlatMapCons(f, e, y);
    FlatMapConcat(f, x, [e]);
    FlatMapConcat(f, x + [e], y);
    FlatMapConcat(f, x, y);
  }

  lemma SplitAt<T>(s: seq<T>, e: T) returns (x: seq<T>, y: seq<T>)
    requires e in s
    ensures s == x + [e] + y && |x + y| < |s|
    ensures multiset(x + y) == multiset(s) - multiset{e}
  {
    var i :| 0 <= i < |s| && s[i] == e;
    x, y := s[..i], s[i + 1..];
    assert s == x + [e] + y;
  }

  lemma {:induction false} FlatMapPermuted<A, B>(f: A -> seq<B>, a: seq<A>, b: seq<A>)
    requires multiset(a) == multiset(b)
    ensures multiset(FlatMap(f, a)) == multiset(FlatMap(f, b))
    decreases |a|
  {
    hide *;
    assert |a| == |multiset(a)| == |multiset(b)| == |b|;
    if a == [] {
      assert b == [];
    } else {
      assert a[0] in multiset(b);
      var x, y := SplitAt(a, a[0]);
      var z, w := SplitAt(b, a[0]);
      FlatMapMiddle(f, x, a[0], y);
      FlatMapMiddle(f, z, a[0], w);
      FlatMapPermuted(f, x + y, z + w);
    }
  }

  function Elements<T>(s: seq<T>): set<T> {
    set x | x in s
  }

  lemma ElementsEmpty<T>(s: seq<T>)
    ensures Elements(s) == {} <==> s == []
  {
    if s != [] {
      assert s[0] in Elements(s);
    }
  }

  predicate NoRepeats<T(==)>(s: seq<T>) {
    forall i, j :: 0 <= i < j < |s| ==> s[i] != s[j]
  }

  lemma NoRepeatsCons<T>(e: T, rest: seq<T>)
    ensures NoRepeats([e] + rest) <==> NoRepeats(rest) && e !in rest
  {
    var s := [e] + rest;
    assert forall i :: 0 <= i < |rest| ==> s[i + 1] == rest[i];
    if NoRepeats(s) {
      forall i | 0 <= i < |rest| ensures rest[i] != e {
        assert s[0] != s[i + 1];
      }
      forall i, j | 0 <= i < j < |rest| ensures rest[i] != rest[j] {
        assert s[i + 1] != s[j + 1];
      }
    }
  }

  ghost predicate Enumerates<T>(s: seq<T>, elements: set<T>) {
    Elements(s) == elements && NoRepeats(s)
  }

  lemma {:induction false} NoRepeatsCount<T>(s: seq<T>)
    ensures NoRepeats(s) <==> forall x :: multiset(s)[x] <= 1
  {
    if s == [] {
    } else {
      var e, rest := s[0], s[1..];
      assert s == [e] + rest;
      NoRepeatsCount(rest);
      if NoRepeats(s) {
        assert NoRepeats(rest);
        assert forall k :: 0 <= k < |rest| ==> rest[k] == s[k + 1];
        assert e !in rest;
      } else {
        var i, j :| 0 <= i < j < |s| && s[i] == s[j];
        if i == 0 {
          assert rest[j - 1] == e && e in rest;
          assert multiset(s)[e] >= 2;
        } else {
          assert rest[i - 1] == rest[j - 1];
          var x :| multiset(rest)[x] > 1;
          assert multiset(s)[x] > 1;
        }
      }
    }
  }
}
