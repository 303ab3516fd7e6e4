/** Byte strings, their lexicographic order, ascending enumerations of finite key sets, and
    the big-endian layout of integers: the vocabulary in which the store's keys are described. */
module ByteStrings {

  type Byte = x: int | 0 <= x < 256
  type Bytes = seq<Byte>

  /** `bytes.Compare(a, b) < 0`. */
  predicate Less(a: Bytes, b: Bytes) {
    b != [] && (a == [] || a[0] < b[0] || (a[0] == b[0] && Less(a[1..], b[1..])))
  }

  predicate AtMost(a: Bytes, b: Bytes) {
    a == b || Less(a, b)
  }

  lemma {:induction false} LessIrreflexive(a: Bytes)
    ensures !Less(a, a)
  {
    if a == [] {
    } else {
      LessIrreflexive(a[1..]);
    }
  }

  lemma {:induction false} LessTransitive(a: Bytes, b: Bytes, c: Bytes)
    requires Less(a, b) && Less(b, c)
    ensures Less(a, c)
  {
    if a == [] || !(a[0] == b[0] == c[0]) {
    } else {
      LessTransitive(a[1..], b[1..], c[1..]);
    }
  }

  lemma {:induction false} LessTotal(a: Bytes, b: Bytes)
    ensures Less(a, b) || a == b || Less(b, a)
  {
    if a == [] || b == [] || a[0] != b[0] {
    } else {
      LessTotal(a[1..], b[1..]);
      assert a == [a[0]] + a[1..] && b == [b[0]] + b[1..];
    }
  }

  /** The byte order is a strict total order. */
  lemma StrictTotalOrder()
    ensures forall a: Bytes :: !Less(a, a)
    ensures forall a: Bytes, b: Bytes, c: Bytes :: Less(a, b) && Less(b, c) ==> Less(a, c)
    ensures forall a: Bytes, b: Bytes :: Less(a, b) || a == b || Less(b, a)
  {
    forall a: Bytes { LessIrreflexive(a); }
    forall a: Bytes, b: Bytes, c: Bytes | Less(a, b) && Less(b, c) { LessTransitive(a, b, c); }
    forall a: Bytes, b: Bytes ensures Less(a, b) || a == b || Less(b, a) { LessTotal(a, b); }
  }

  lemma LessAntisymmetric(a: Bytes, b: Bytes)
    ensures AtMost(a, b) && AtMost(b, a) ==> a == b
    ensures !(Less(a, b) && AtMost(b, a))
  {
    StrictTotalOrder();
  }

  /** A common prefix does not influence the order. */
  lemma {:induction false} CommonPrefix(p: Bytes, a: Bytes, b: Bytes)
    ensures Less(p + a, p + b) <==> Less(a, b)
  {
    if p == [] {
      assert p + a == a && p + b == b;
    } else {
      assert (p + a)[1..] == p[1..] + a && (p + b)[1..] == p[1..] + b;
      CommonPrefix(p[1..], a, b);
    }
  }

  /** A string is never above its own extensions. */
  lemma PrefixAtMost(p: Bytes, k: Bytes)
    requires p <= k
    ensures AtMost(p, k)
  {
    assert p + [] == p && p + k[|p|..] == k;
    CommonPrefix(p, [], k[|p|..]);
  }

  /** Keys that share a prefix are contiguous in the order. */
  lemma {:induction false} PrefixConvex(p: Bytes, a: Bytes, k: Bytes, b: Bytes)
    requires p <= a && p <= b && AtMost(a, k) && AtMost(k, b)
    ensures p <= k
  {
    if p == [] || k == a || k == b {
    } else {
      assert a[0] == b[0] == p[0] == k[0];
      PrefixConvex(p[1..], a[1..], k[1..], b[1..]);
      assert k == [k[0]] + k[1..];
    }
  }

  /** Equally long heads decide the order before the tails do. */
  lemma {:induction false} HeadDecides(x: Bytes, y: Bytes, a: Bytes, b: Bytes)
    requires |x| == |y|
    ensures Less(x + a, y + b) <==> Less(x, y) || (x == y && Less(a, b))
  {
    if x == [] {
      assert x + a == a && y + b == b;
    } else {
      assert (x + a)[1..] == x[1..] + a && (y + b)[1..] == y[1..] + b;
      HeadDecides(x[1..], y[1..], a, b);
      assert x == [x[0]] + x[1..] && y == [y[0]] + y[1..];
    }
  }

  // ---------- Ascending enumeration of a finite set of keys ----------

  predicate Sorted(xs: seq<Bytes>) {
    forall i, j :: 0 <= i < j < |xs| ==> Less(xs[i], xs[j])
  }

  lemma SortedSnoc(xs: seq<Bytes>, k: Bytes)
    requires Sorted(xs) && (xs == [] || Less(xs[|xs| - 1], k))
    ensures Sorted(xs + [k])
  {
    forall i | 0 <= i < |xs| ensures Less(xs[i], k) {
      if i < |xs| - 1 {
        LessTransitive(xs[i], xs[|xs| - 1], k);
      }
    }
  }

  lemma SortedLast(xs: seq<Bytes>, x: Bytes)
    requires Sorted(xs) && x in xs
    ensures AtMost(x, xs[|xs| - 1])
  {
    var i :| 0 <= i < |xs| && xs[i] == x;
  }

  lemma {:induction false} LeastExists(s: set<Bytes>)
    requires s != {}
    ensures exists m :: m in s && forall k :: k in s ==> AtMost(m, k)
  {
    var x :| x in s;
    if s == {x} {
    } else {
      LeastExists(s - {x});
      var m :| m in s - {x} && forall k :: k in s - {x} ==> AtMost(m, k);
      StrictTotalOrder();
      var least := if Less(x, m) then x else m;
      assert forall k :: k in s ==> k == x || k in s - {x};
      assert least in s && forall k :: k in s ==> AtMost(least, k);
    }
  }

  ghost function Least(s: set<Bytes>): (m: Bytes)
    requires s != {}
    ensures m in s && forall k :: k in s ==> AtMost(m, k)
  {
    LeastExists(s);
    var m :| m in s && forall k :: k in s ==> AtMost(m, k);
    m
  }

  /** The elements of `s` from the least to the greatest. */
  ghost function Ascending(s: set<Bytes>): (xs: seq<Bytes>)
    decreases |s|
  {
    if s == {} then [] else [Least(s)] + Ascending(s - {Least(s)})
  }

  lemma {:induction false} AscendingEnumerates(s: set<Bytes>)
    ensures Sorted(Ascending(s))
    ensures forall k :: k in Ascending(s) <==> k in s
    ensures |Ascending(s)| == |s|
    decreases |s|
  {
    if s == {} {
    } else {
      var m := Least(s);
      AscendingEnumerates(s - {m});
      var rest := Ascending(s - {m});
      hide Less;
      assert Ascending(s) == [m] + rest;
      forall j | 0 <= j < |rest| ensures Less(m, rest[j]) {
        assert rest[j] in rest;
      }
    }
  }

  /** Every element of `xs` is in `s`, and every element of `s` below one of `xs` is in `xs`. */
  ghost predicate LowerPart(xs: seq<Bytes>, s: set<Bytes>) {
    && (forall x :: x in xs ==> x in s)
    && forall k, x :: k in s && x in xs && Less(k, x) ==> k in xs
  }

  lemma HeadIsLeast(xs: seq<Bytes>, s: set<Bytes>)
    requires Sorted(xs) && LowerPart(xs, s) && xs != []
    ensures s != {} && Least(s) == xs[0]
  {
    assert xs[0] in s;
    var m := Least(s);
    NotBelowHead(xs, m);
  }

  lemma NotBelowHead(xs: seq<Bytes>, m: Bytes)
    requires Sorted(xs) && xs != [] && (Less(m, xs[0]) ==> m in xs)
    ensures !Less(m, xs[0])
  {
    if Less(m, xs[0]) {
      var i :| 0 <= i < |xs| && xs[i] == m;
      LessIrreflexive(m);
      if i > 0 {
        LessTransitive(m, xs[0], m);
      }
    }
  }

  lemma TailIsLowerPart(xs: seq<Bytes>, s: set<Bytes>)
    requires Sorted(xs) && LowerPart(xs, s) && xs != []
    ensures LowerPart(xs[1..], s - {xs[0]})
    ensures (forall k :: k in s ==> k in xs) ==> forall k :: k in s - {xs[0]} ==> k in xs[1..]
  {
    var rest := xs[1..];
    forall x | x in rest ensures x in s - {xs[0]} {
      var i :| 0 <= i < |rest| && rest[i] == x;
      assert x == xs[i + 1];
      LessIrreflexive(x);
    }
    forall k | k in xs && k != xs[0] ensures k in rest {
      var i :| 0 <= i < |xs| && xs[i] == k;
      assert k == rest[i - 1];
    }
  }

  /** A sorted list that is a lower part of `s` is an initial segment of the ascending
      enumeration of `s`, and all of it when it has all the elements. */
  lemma {:induction false} InitialSegment(xs: seq<Bytes>, s: set<Bytes>)
    requires Sorted(xs) && LowerPart(xs, s)
    ensures |xs| <= |Ascending(s)| && xs == Ascending(s)[..|xs|]
    ensures (forall k :: k in s ==> k in xs) ==> xs == Ascending(s)
  {
    if xs == [] {
      assert (forall k :: k in s ==> k in xs) ==> s == {};
    } else {
      HeadIsLeast(xs, s);
      TailIsLowerPart(xs, s);
      hide LowerPart;
      InitialSegment(xs[1..], s - {xs[0]});
      assert xs == [xs[0]] + xs[1..];
    }
  }

  /** A sorted list of exactly the elements of `s` is its ascending enumeration. */
  lemma SortedIsAscending(xs: seq<Bytes>, s: set<Bytes>)
    requires Sorted(xs)
    requires forall x :: x in xs <==> x in s
    ensures xs == Ascending(s)
  {
    InitialSegment(xs, s);
  }

  /** Removing the least element removes the head of the enumeration. */
  lemma AscendingUncons(s: set<Bytes>, m: Bytes)
    requires m in s && forall k :: k in s ==> AtMost(m, k)
    ensures Ascending(s) == [m] + Ascending(s - {m})
  {
    LessAntisymmetric(Least(s), m);
  }

  // ---------- Big-endian integers ----------

  function Pow256(n: nat): (r: int)
    ensures r > 0
  {
    if n == 0 then 1 else 256 * Pow256(n - 1)
  }

  /** The low `n` bytes of `v` in two's complement, most significant byte first. */
  function BigEndian(n: nat, v: int): (r: Bytes)
    ensures |r| == n
  {
    if n == 0 then [] else BigEndian(n - 1, v / 256) + [v % 256]
  }

  /** Among the values that `n` bytes can hold, the byte order is the numeric order. */
  lemma {:induction false} BigEndianOrder(n: nat, a: int, b: int)
    requires 0 <= a < Pow256(n) && 0 <= b < Pow256(n)
    ensures Less(BigEndian(n, a), BigEndian(n, b)) <==> a < b
    ensures BigEndian(n, a) == BigEndian(n, b) <==> a == b
  {
    if n == 0 {
    } else {
      BigEndianOrder(n - 1, a / 256, b / 256);
      HeadDecides(BigEndian(n - 1, a / 256), BigEndian(n - 1, b / 256), [a % 256], [b % 256]);
      var x, y := BigEndian(n - 1, a / 256), BigEndian(n - 1, b / 256);
      assert BigEndian(n, a)[..n - 1] == x && BigEndian(n, b)[..n - 1] == y;
      assert BigEndian(n, a)[n - 1] == a % 256 && BigEndian(n, b)[n - 1] == b % 256;
    }
  }

  /** Only the value modulo 256^n matters. */
  lemma {:induction false} BigEndianWraps(n: nat, v: int, m: int)
    ensures BigEndian(n, v + m * Pow256(n)) == BigEndian(n, v)
  {
    if n == 0 {
    } else {
      var q := m * Pow256(n - 1);
      assert m * Pow256(n) == 256 * q;
      assert (v + 256 * q) / 256 == v / 256 + q && (v + 256 * q) % 256 == v % 256;
      BigEndianWraps(n - 1, v / 256, m);
    }
  }
}
