/** Facts about sequences shared by several models. */
module Sequences {
  /** `a` is obtained from `b` by deleting elements. */
  predicate Subsequence<T(==)>(a: seq<T>, b: seq<T>)
    decreases |b|
  {
    || a == []
    || (b != [] && (|| (a[|a| - 1] == b[|b| - 1] && Subsequence(a[..|a| - 1], b[..|b| - 1]))
                    || Subsequence(a, b[..|b| - 1])))
  }

  predicate NoDuplicates<T(==)>(s: seq<T>) {
    forall i, j :: 0 <= i < j < |s| ==> s[i] != s[j]
  }

  lemma SubsequenceTrans<T>(a: seq<T>, b: seq<T>, c: seq<T>)
    requires Subsequence(a, b) && Subsequence(b, c)
    ensures Subsequence(a, c)
    decreases |c|, |b|
  {
    if a == [] || b == [] {
    } else {
      var b' := b[..|b| - 1];
      var c' := c[..|c| - 1];
      if b[|b| - 1] == c[|c| - 1] && Subsequence(b', c') {
        if a[|a| - 1] == b[|b| - 1] && Subsequence(a[..|a| - 1], b') {
          SubsequenceTrans(a[..|a| - 1], b', c');
        } else {
          SubsequenceTrans(a, b', c');
        }
      } else {
        SubsequenceTrans(a, b, c');
      }
    }
  }

  lemma SubsequenceSelf<T>(a: seq<T>)
    ensures Subsequence(a, a)
  {
    if a != [] { SubsequenceSelf(a[..|a| - 1]); }
  }

  lemma SubsequencePrefix<T>(a: seq<T>, x: seq<T>, b: seq<T>)
    requires Subsequence(a + x, b)
    ensures Subsequence(a, b)
    decreases |b|
  {
    if a != [] && b != [] {
      if x == [] {
        assert a + x == a;
      } else {
        var ax := a + x;
        if ax[|ax| - 1] == b[|b| - 1] && Subsequence(ax[..|ax| - 1], b[..|b| - 1]) {
          assert ax[..|ax| - 1] == a + x[..|x| - 1];
          SubsequencePrefix(a, x[..|x| - 1], b[..|b| - 1]);
        } else {
          SubsequencePrefix(a, x, b[..|b| - 1]);
        }
      }
    }
  }

  lemma SubsequenceAppend<T>(a: seq<T>, b: seq<T>, x: T)
    requires Subsequence(a, b)
    ensures Subsequence(a, b + [x]) && Subsequence(a + [x], b + [x])
  {
    assert (b + [x])[..|b|] == b && (a + [x])[..|a|] == a;
  }

  lemma SubsequenceCons<T>(a: seq<T>, b: seq<T>, x: T)
    requires Subsequence(a, b)
    ensures Subsequence([x] + a, [x] + b) && Subsequence(a, [x] + b)
    decreases |b|
  {
    var xb := [x] + b;
    if b == [] {
      assert [x] + a == [x] && xb == [x];
    } else {
      assert xb[|xb| - 1] == b[|b| - 1] && xb[..|xb| - 1] == [x] + b[..|b| - 1];
      if a != [] && a[|a| - 1] == b[|b| - 1] && Subsequence(a[..|a| - 1], b[..|b| - 1]) {
        SubsequenceCons(a[..|a| - 1], b[..|b| - 1], x);
        var xa := [x] + a;
        assert xa[..|xa| - 1] == [x] + a[..|a| - 1];
      } else {
        SubsequenceCons(a, b[..|b| - 1], x);
      }
    }
  }

  lemma {:induction false} SubsequenceExtend<T>(a: seq<T>, b: seq<T>, x: seq<T>)
    requires Subsequence(a, b)
    ensures Subsequence(a, b + x)
  {
    if x == [] {
      assert b + x == b;
    } else {
      SubsequenceExtend(a, b, x[..|x| - 1]);
      SubsequenceAppend(a, b + x[..|x| - 1], x[|x| - 1]);
      assert b + x == b + x[..|x| - 1] + [x[|x| - 1]];
    }
  }

  lemma {:induction false} SubsequenceWithout<T>(a: seq<T>, x: T, b: seq<T>)
    ensures Subsequence(a + b, a + [x] + b)
  {
    if b == [] {
      SubsequenceSelf(a);
      SubsequenceAppend(a, a, x);
      assert a + b == a && a + [x] + b == a + [x];
    } else {
      var b', y := b[..|b| - 1], b[|b| - 1];
      SubsequenceWithout(a, x, b');
      SubsequenceAppend(a + b', a + [x] + b', y);
      assert a + b == a + b' + [y] && a + [x] + b == a + [x] + b' + [y];
    }
  }

  lemma {:induction false} SubsequenceDistinct<T>(a: seq<T>, b: seq<T>)
    requires Subsequence(a, b)
    ensures forall x :: x in a ==> x in b
    ensures NoDuplicates(b) ==> NoDuplicates(a)
    decreases |b|
  {
    if a != [] {
      var a', b' := a[..|a| - 1], b[..|b| - 1];
      assert a == a' + [a[|a| - 1]] && b == b' + [b[|b| - 1]];
      if a[|a| - 1] == b[|b| - 1] && Subsequence(a', b') {
        SubsequenceDistinct(a', b');
        if NoDuplicates(b) {
          assert forall i :: 0 <= i < |b'| ==> b'[i] == b[i];
          forall i, j | 0 <= i < j < |a| ensures a[i] != a[j] {
            if j < |a'| { assert a'[i] == a[i] && a'[j] == a[j]; } else { assert a'[i] in b'; }
          }
        }
      } else {
        SubsequenceDistinct(a, b');
      }
    }
  }

  /** The elements of a sequence without duplicates, as a multiset, are those of its set. */
  lemma {:induction false} DistinctIsSet<T>(s: seq<T>)
    requires NoDuplicates(s)
    ensures multiset(s) == multiset(set x | x in s)
  {
    if s == [] {
      assert (set x | x in s) == {};
    } else {
      var rest, last := s[..|s| - 1], s[|s| - 1];
      assert s == rest + [last] && last !in rest;
      DistinctIsSet(rest);
      assert (set x | x in s) == (set x | x in rest) + {last};
    }
  }
}
