/**
 * The orders Python's `sorted` uses on the values the lesson generator
 * sorts: strings by code point (domain names), and lexicographic order
 * on sequences in general (paths are compared by `FileSystem.PathLt`).  `SortedSet` is the
 * sorted listing of a finite set, and `Sort` computes it.
 */
module Order {

  ghost predicate StrictTotalOrder<T(!new)>(lt: (T, T) -> bool) {
    && (forall a :: !lt(a, a))
    && (forall a, b, c :: lt(a, b) && lt(b, c) ==> lt(a, c))
    && (forall a, b :: a != b ==> lt(a, b) || lt(b, a))
  }

  /** Lexicographic order on sequences built from an order on their elements; a proper prefix comes first. */
  predicate LexLt<T(==)>(lt: (T, T) -> bool, a: seq<T>, b: seq<T>) {
    if |a| == 0 then |b| > 0
    else if |b| == 0 then false
    else if a[0] != b[0] then lt(a[0], b[0])
    else LexLt(lt, a[1..], b[1..])
  }

  lemma {:induction false} LexIrreflexive<T(!new)>(lt: (T, T) -> bool, a: seq<T>)
    requires StrictTotalOrder(lt)
    ensures !LexLt(lt, a, a)
  {
    if |a| > 0 {
      LexIrreflexive(lt, a[1..]);
    }
  }

  lemma {:induction false} LexTransitive<T(!new)>(lt: (T, T) -> bool, a: seq<T>, b: seq<T>, c: seq<T>)
    requires StrictTotalOrder(lt)
    requires LexLt(lt, a, b) && LexLt(lt, b, c)
    ensures LexLt(lt, a, c)
  {
    if |a| > 0 && |b| > 0 && |c| > 0 && a[0] == b[0] && b[0] == c[0] {
      LexTransitive(lt, a[1..], b[1..], c[1..]);
    }
  }

  lemma {:induction false} LexTotal<T(!new)>(lt: (T, T) -> bool, a: seq<T>, b: seq<T>)
    requires StrictTotalOrder(lt)
    requires a != b
    ensures LexLt(lt, a, b) || LexLt(lt, b, a)
  {
    if |a| > 0 && |b| > 0 && a[0] == b[0] {
      assert a == [a[0]] + a[1..] && b == [b[0]] + b[1..];
      LexTotal(lt, a[1..], b[1..]);
    }
  }

  /** Lexicographic order over a strict total order is again a strict total order. */
  lemma LexIsStrictTotal<T(!new)>(lt: (T, T) -> bool)
    requires StrictTotalOrder(lt)
    ensures StrictTotalOrder((a: seq<T>, b: seq<T>) => LexLt(lt, a, b))
  {
    forall a: seq<T> ensures !LexLt(lt, a, a) {
      LexIrreflexive(lt, a);
    }
    forall a: seq<T>, b: seq<T>, c: seq<T> | LexLt(lt, a, b) && LexLt(lt, b, c) ensures LexLt(lt, a, c) {
      LexTransitive(lt, a, b, c);
    }
    forall a: seq<T>, b: seq<T> | a != b ensures LexLt(lt, a, b) || LexLt(lt, b, a) {
      LexTotal(lt, a, b);
    }
  }

  predicate CharLt(x: char, y: char) {
    x < y
  }

  /** Python's `<` on `str`: code point by code point. */
  predicate StrLt(a: string, b: string) {
    LexLt(CharLt, a, b)
  }

  lemma StrLtIsStrictTotal()
    ensures StrictTotalOrder(StrLt)
  {
    assert StrictTotalOrder(CharLt);
    forall a: string ensures !StrLt(a, a) {
      LexIrreflexive(CharLt, a);
    }
    forall a: string, b: string, c: string | StrLt(a, b) && StrLt(b, c) ensures StrLt(a, c) {
      LexTransitive(CharLt, a, b, c);
    }
    forall a: string, b: string | a != b ensures StrLt(a, b) || StrLt(b, a) {
      LexTotal(CharLt, a, b);
    }
  }

  /** `"" < "a"`, `"aaa" < "mmm" < "zzz"`, `"asyncio" < "dsa"`: spot checks of the string order. */
  lemma StrLtExamples()
    ensures StrLt("", "a") && StrLt("aaa", "mmm") && StrLt("mmm", "zzz") && !StrLt("b", "a")
    ensures StrLt("asyncio", "dsa")
  {
    assert StrLt("aaa", "mmm");
  }

  // ----- sorted listings of finite sets -----

  ghost predicate StrictlySorted<T>(lt: (T, T) -> bool, xs: seq<T>) {
    forall i, j :: 0 <= i < j < |xs| ==> lt(xs[i], xs[j])
  }

  predicate IsLeast<T(==)>(lt: (T, T) -> bool, m: T, s: set<T>) {
    m in s && forall y :: y in s && y != m ==> lt(m, y)
  }

  lemma {:induction false} LeastExists<T(!new)>(lt: (T, T) -> bool, s: set<T>)
    requires StrictTotalOrder(lt) && s != {}
    ensures exists m :: IsLeast(lt, m, s)
    decreases |s|
  {
    var x :| x in s;
    if s != {x} {
      LeastExists(lt, s - {x});
      var m :| IsLeast(lt, m, s - {x});
      if lt(x, m) {
        forall y | y in s && y != x ensures lt(x, y) {
          if y != m {
            assert lt(m, y);
          }
        }
        assert IsLeast(lt, x, s);
      } else {
        assert IsLeast(lt, m, s);
      }
    } else {
      assert IsLeast(lt, x, s);
    }
  }

  lemma LeastUnique<T(!new)>(lt: (T, T) -> bool, s: set<T>, m: T, n: T)
    requires StrictTotalOrder(lt) && IsLeast(lt, m, s) && IsLeast(lt, n, s)
    ensures m == n
  {
  }

  ghost function Least<T(!new)>(lt: (T, T) -> bool, s: set<T>): (m: T)
    requires StrictTotalOrder(lt) && s != {}
    ensures IsLeast(lt, m, s)
  {
    LeastExists(lt, s);
    var m :| IsLeast(lt, m, s); m
  }

  /** The elements of `s` in increasing order, each once. */
  ghost function SortedSet<T(!new)>(lt: (T, T) -> bool, s: set<T>): (r: seq<T>)
    requires StrictTotalOrder(lt)
    ensures StrictlySorted(lt, r) && |r| == |s|
    ensures forall x :: x in r <==> x in s
    decreases |s|
  {
    if s == {} then []
    else
      var m := Least(lt, s);
      var tail := SortedSet(lt, s - {m});
      assert forall i :: 0 <= i < |tail| ==> lt(m, tail[i]);
      [m] + tail
  }

  /** A strictly sorted sequence is determined by its set of elements. */
  lemma {:induction false} SortedUnique<T(!new)>(lt: (T, T) -> bool, xs: seq<T>, ys: seq<T>)
    requires StrictTotalOrder(lt) && StrictlySorted(lt, xs) && StrictlySorted(lt, ys)
    requires forall x :: x in xs <==> x in ys
    ensures xs == ys
    decreases |xs|
  {
    assert xs != [] ==> xs[0] in xs;
    assert ys != [] ==> ys[0] in ys;
    if xs != [] && ys != [] {
      var s := set x | x in xs;
      assert IsLeast(lt, xs[0], s) by {
        forall y | y in s && y != xs[0] ensures lt(xs[0], y) {
          var j :| 0 <= j < |xs| && xs[j] == y;
        }
      }
      assert IsLeast(lt, ys[0], s) by {
        forall y | y in s && y != ys[0] ensures lt(ys[0], y) {
          var j :| 0 <= j < |ys| && ys[j] == y;
        }
      }
      LeastUnique(lt, s, xs[0], ys[0]);
      forall x | x in xs[1..] ensures x in ys[1..] {
        TailMember(lt, xs, ys, x);
      }
      forall x | x in ys[1..] ensures x in xs[1..] {
        TailMember(lt, ys, xs, x);
      }
      SortedUnique(lt, xs[1..], ys[1..]);
      assert xs == [xs[0]] + xs[1..] && ys == [ys[0]] + ys[1..];
    }
  }

  lemma TailMember<T(!new)>(lt: (T, T) -> bool, xs: seq<T>, ys: seq<T>, x: T)
    requires StrictTotalOrder(lt) && StrictlySorted(lt, xs) && StrictlySorted(lt, ys)
    requires forall z :: z in xs <==> z in ys
    requires xs != [] && ys != [] && xs[0] == ys[0] && x in xs[1..]
    ensures x in ys[1..]
  {
    var j :| 1 <= j < |xs| && xs[j] == x;
    assert lt(xs[0], xs[j]);
    assert x != ys[0];
    assert x in ys;
    var k :| 0 <= k < |ys| && ys[k] == x;
    assert ys[1..][k - 1] == x;
  }

  /** Python's `sorted(s)` on a set: repeatedly takes the least remaining element. */
  method Sort<T(!new, ==)>(lt: (T, T) -> bool, s: set<T>) returns (r: seq<T>)
    requires StrictTotalOrder(lt)
    ensures r == SortedSet(lt, s)
  {
    r := [];
    var rest := s;
    while rest != {}
      invariant rest <= s
      invariant StrictlySorted(lt, r)
      invariant forall x :: x in s <==> x in r || x in rest
      invariant forall i, y :: 0 <= i < |r| && y in rest ==> lt(r[i], y)
      decreases |rest|
    {
      LeastExists(lt, rest);
      var m :| IsLeast(lt, m, rest);
      r := r + [m];
      rest := rest - {m};
    }
    SortedUnique(lt, r, SortedSet(lt, s));
  }
}
