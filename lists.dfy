/** The game keeps its sprites in Java lists (`CopyOnWriteArrayList`). They are
    sequences here; `add` is `s + [x]` and `remove(Object)` is `Without`. */
module Lists {

  /** No element occurs twice. The game's lists hold each sprite object once. */
  ghost predicate Distinct<T>(s: seq<T>) {
    forall i, j :: 0 <= i < j < |s| ==> s[i] != s[j]
  }

  /** `List.remove(Object)`: drops the first element equal to `x`, if there is one. */
  function Without<T(==)>(s: seq<T>, x: T): (r: seq<T>)
    ensures x !in s ==> r == s
    ensures x in s ==> |r| == |s| - 1
  {
    if s == [] then []
    else if s[0] == x then s[1..]
    else [s[0]] + Without(s[1..], x)
  }

  /** `Without` takes away one occurrence of `x` and nothing else. */
  lemma {:induction false} WithoutMultiset<T>(s: seq<T>, x: T)
    ensures multiset(Without(s, x)) == multiset(s) - multiset{x}
  {
    if s != [] {
      assert s == [s[0]] + s[1..];
      WithoutMultiset(s[1..], x);
    }
  }

  /** Removing `x` keeps every other element. */
  lemma {:induction false} WithoutKeeps<T>(s: seq<T>, x: T, y: T)
    requires y in s && y != x
    ensures y in Without(s, x)
  {
    if s[0] != x && s[0] != y {
      WithoutKeeps(s[1..], x, y);
    }
  }

  /** On a list without repetitions, `Without` removes exactly `x` and keeps the
      list free of repetitions. */
  lemma {:induction false} WithoutDistinct<T>(s: seq<T>, x: T)
    requires Distinct(s)
    ensures Distinct(Without(s, x))
    ensures forall y :: y in Without(s, x) <==> y in s && y != x
  {
    var r := Without(s, x);
    WithoutMultiset(s, x);
    forall y ensures y in r <==> y in s && y != x {
      if y in s && y != x {
        WithoutKeeps(s, x, y);
      }
      if y in r {
        assert multiset(r)[y] > 0;
        if y == x {
          DistinctCount(s, x);
          assert false;
        }
      }
    }
    forall i, j | 0 <= i < j < |r| ensures r[i] != r[j] {
      if r[i] == r[j] {
        assert multiset(r)[r[i]] >= 2 by { TwoIndices(r, i, j); }
        DistinctCount(s, r[i]);
        assert false;
      }
    }
  }

  /** In a list without repetitions every element occurs at most once. */
  lemma {:induction false} DistinctCount<T>(s: seq<T>, x: T)
    requires Distinct(s)
    ensures multiset(s)[x] <= 1
  {
    if s != [] {
      assert Distinct(s[1..]);
      DistinctCount(s[1..], x);
      assert s == [s[0]] + s[1..];
      if s[0] == x {
        assert x !in s[1..];
      }
    }
  }

  /** Two positions holding the same value give it two occurrences. */
  lemma {:induction false} TwoIndices<T>(s: seq<T>, i: int, j: int)
    requires 0 <= i < j < |s| && s[i] == s[j]
    ensures multiset(s)[s[i]] >= 2
  {
    assert s == s[..i] + [s[i]] + s[i + 1..j] + [s[j]] + s[j + 1..];
  }

  /** Removing an element brings in nothing new. */
  lemma {:induction false} WithoutWithin<T>(s: seq<T>, x: T, y: T)
    requires y !in s
    ensures y !in Without(s, x)
  {
    if s != [] && s[0] != x {
      WithoutWithin(s[1..], x, y);
    }
  }

  /** Removing an element that does not occur in the front part only touches the rest. */
  lemma {:induction false} WithoutAfter<T>(a: seq<T>, b: seq<T>, x: T)
    requires x !in a
    ensures Without(a + b, x) == a + Without(b, x)
  {
    if a != [] {
      var ab := a + b;
      assert ab[0] == a[0] && ab[0] != x;
      assert ab[1..] == a[1..] + b;
      WithoutAfter(a[1..], b, x);
      var w := Without(b, x);
      assert Without(ab, x) == [a[0]] + (a[1..] + w);
      assert [a[0]] + (a[1..] + w) == ([a[0]] + a[1..]) + w;
      assert [a[0]] + a[1..] == a;
    } else {
      assert a + b == b;
    }
  }

  /** A list without repetitions stays so when a new element is appended. */
  lemma AppendDistinct<T>(s: seq<T>, x: T)
    requires Distinct(s) && x !in s
    ensures Distinct(s + [x])
  {
  }

  /** Appending an element the list already holds makes it hold that element twice. */
  lemma AppendPresent<T>(s: seq<T>, x: T)
    requires x in s
    ensures !Distinct(s + [x])
  {
    var i :| 0 <= i < |s| && s[i] == x;
    assert (s + [x])[i] == (s + [x])[|s|];
  }

  /** A list is its element at `i` between the parts before and after it. */
  lemma SplitAt<T>(s: seq<T>, i: int)
    requires 0 <= i < |s|
    ensures s[i..] == [s[i]] + s[i + 1..]
  {
  }

  /** Removing `x` from a list with a different element appended removes it from the
      front part. */
  lemma {:induction false} WithoutSnoc<T>(s: seq<T>, x: T, y: T)
    requires x != y
    ensures Without(s + [y], x) == Without(s, x) + [y]
  {
    if s != [] {
      assert (s + [y])[0] == s[0];
      assert (s + [y])[1..] == s[1..] + [y];
      if s[0] != x {
        WithoutSnoc(s[1..], x, y);
      }
    }
  }

  lemma AppendAssoc<T>(a: seq<T>, b: seq<T>, c: seq<T>)
    ensures a + b + c == a + (b + c)
  {
  }
}

