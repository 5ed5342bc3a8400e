/**
 * The pattern builder of record_linkage.py: similarity categories, the
 * similarity tuple of a record pair (similarity_tuple) and the space of all
 * tuples (gen_all_sim_tp).
 */
module Patterns {
  import opened SeqFacts

  /** A discretised Jaro-Winkler score: "high", "medium" or "low". */
  datatype Category = High | Medium | Low

  /** A similarity tuple: the categories of (name, city, address). */
  type Pattern = (Category, Category, Category)

  /** One restaurant row of a table: the columns name, city, address (positions 0, 1, 2). */
  datatype Record = Record(name: string, city: string, address: string)

  /** A step that looks a pattern up in a dictionary either succeeds or raises KeyError for that pattern. */
  datatype Result<T> = Ok(value: T) | KeyError(key: Pattern)

  /**
   * jellyfish.jaro_winkler_similarity followed by util.get_jw_category.
   * Neither is part of this model, so the composite is a parameter.
   */
  type Scorer = (string, string) -> Category

  /** The similarity tuple of row `index1` of `restDb1` and row `index2` of `restDb2`. */
  function SimilarityTuple(index1: nat, index2: nat, restDb1: seq<Record>, restDb2: seq<Record>, jw: Scorer): Pattern
    requires index1 < |restDb1| && index2 < |restDb2|
  {
    var r1, r2 := restDb1[index1], restDb2[index2];
    (jw(r1.name, r2.name), jw(r1.city, r2.city), jw(r1.address, r2.address))
  }

  /** With a symmetric metric, swapping the two tables swaps nothing in the tuple. */
  lemma {:induction false} SimilarityTupleSymmetric(index1: nat, index2: nat, restDb1: seq<Record>, restDb2: seq<Record>, jw: Scorer)
    requires index1 < |restDb1| && index2 < |restDb2|
    requires forall a, b :: jw(a, b) == jw(b, a)
    ensures SimilarityTuple(index1, index2, restDb1, restDb2, jw) == SimilarityTuple(index2, index1, restDb2, restDb1, jw)
  {
  }

  /** A pair with equal city strings gets the city category of identical strings. */
  lemma {:induction false} SameCitySameCategory(index1: nat, index2: nat, restDb1: seq<Record>, restDb2: seq<Record>, jw: Scorer)
    requires index1 < |restDb1| && index2 < |restDb2|
    requires restDb1[index1].city == restDb2[index2].city
    requires forall s :: jw(s, s) == High
    ensures SimilarityTuple(index1, index2, restDb1, restDb2, jw).1 == High
  {
  }

  /** [(x, y, k) for k in zs] */
  function Column<T>(x: T, y: T, zs: seq<T>): seq<(T, T, T)> {
    seq(|zs|, k requires 0 <= k < |zs| => (x, y, zs[k]))
  }

  /** [(x, j, k) for j in ys for k in zs] */
  function Plane<T>(x: T, ys: seq<T>, zs: seq<T>): seq<(T, T, T)> {
    if ys == [] then [] else Column(x, ys[0], zs) + Plane(x, ys[1..], zs)
  }

  /** [(i, j, k) for i in xs for j in ys for k in zs] */
  function Cube<T>(xs: seq<T>, ys: seq<T>, zs: seq<T>): seq<(T, T, T)> {
    if xs == [] then [] else Plane(xs[0], ys, zs) + Cube(xs[1..], ys, zs)
  }

  /** The comprehension of gen_all_sim_tp: every triple over `lst`, in nested i, j, k order. */
  function GenAllSimTp<T>(lst: seq<T>): seq<(T, T, T)> {
    Cube(lst, lst, lst)
  }

  /** The pattern space of generate_label_dic: gen_all_sim_tp(["high", "medium", "low"]). */
  function AllPatterns(): seq<Pattern> {
    GenAllSimTp([High, Medium, Low])
  }

  /** a * p, written as repeated addition so that index proofs stay linear. */
  function Offset(a: nat, p: nat): nat {
    if a == 0 then 0 else p + Offset(a - 1, p)
  }

  lemma {:induction false} OffsetIsProduct(a: nat, p: nat)
    ensures Offset(a, p) == a * p
  {
    if a > 0 {
      OffsetIsProduct(a - 1, p);
      assert a * p == p + (a - 1) * p;
    }
  }

  lemma {:induction false} OffsetBound(a: nat, n: nat, p: nat, off: nat)
    requires a < n && off < p
    ensures Offset(a, p) + off < Offset(n, p)
  {
    if a + 1 < n {
      OffsetBound(a, n - 1, p, off);
    }
  }

  lemma {:induction false} PlaneLength<T>(x: T, ys: seq<T>, zs: seq<T>)
    ensures |Plane(x, ys, zs)| == Offset(|ys|, |zs|)
  {
    if ys != [] {
      PlaneLength(x, ys[1..], zs);
    }
  }

  lemma {:induction false} CubeLength<T>(xs: seq<T>, ys: seq<T>, zs: seq<T>)
    ensures |Cube(xs, ys, zs)| == Offset(|xs|, Offset(|ys|, |zs|))
  {
    if xs != [] {
      PlaneLength(xs[0], ys, zs);
      CubeLength(xs[1..], ys, zs);
    }
  }

  lemma {:induction false} PlaneAt<T>(x: T, ys: seq<T>, zs: seq<T>, b: nat, c: nat)
    requires b < |ys| && c < |zs|
    ensures Offset(b, |zs|) + c < Offset(|ys|, |zs|) == |Plane(x, ys, zs)|
    ensures Plane(x, ys, zs)[Offset(b, |zs|) + c] == (x, ys[b], zs[c])
  {
    PlaneLength(x, ys, zs);
    OffsetBound(b, |ys|, |zs|, c);
    if b > 0 {
      PlaneAt(x, ys[1..], zs, b - 1, c);
    }
  }

  lemma {:induction false} CubeAt<T>(xs: seq<T>, ys: seq<T>, zs: seq<T>, a: nat, off: nat)
    requires a < |xs| && off < Offset(|ys|, |zs|)
    ensures |Plane(xs[a], ys, zs)| == Offset(|ys|, |zs|)
    ensures Offset(a, Offset(|ys|, |zs|)) + off < |Cube(xs, ys, zs)|
    ensures Cube(xs, ys, zs)[Offset(a, Offset(|ys|, |zs|)) + off] == Plane(xs[a], ys, zs)[off]
  {
    var p := Offset(|ys|, |zs|);
    var head, tail := Plane(xs[0], ys, zs), Cube(xs[1..], ys, zs);
    PlaneLength(xs[a], ys, zs);
    PlaneLength(xs[0], ys, zs);
    assert Cube(xs, ys, zs) == head + tail;
    if a == 0 {
      assert Offset(a, p) + off == off;
    } else {
      assert xs[1..][a - 1] == xs[a];
      CubeAt(xs[1..], ys, zs, a - 1, off);
      assert Offset(a, p) + off == |head| + (Offset(a - 1, p) + off);
      assert (head + tail)[Offset(a, p) + off] == tail[Offset(a - 1, p) + off];
    }
  }

  /** The triple at a, b, c of the nested comprehension sits at Offset(a, |ys| * |zs|) + Offset(b, |zs|) + c. */
  lemma {:induction false} CubeTripleAt<T>(xs: seq<T>, ys: seq<T>, zs: seq<T>, a: nat, b: nat, c: nat)
    requires a < |xs| && b < |ys| && c < |zs|
    ensures Offset(a, Offset(|ys|, |zs|)) + (Offset(b, |zs|) + c) < |Cube(xs, ys, zs)|
    ensures Cube(xs, ys, zs)[Offset(a, Offset(|ys|, |zs|)) + (Offset(b, |zs|) + c)] == (xs[a], ys[b], zs[c])
  {
    PlaneAt(xs[a], ys, zs, b, c);
    CubeAt(xs, ys, zs, a, Offset(b, |zs|) + c);
  }

  lemma {:induction false} PlaneMembers<T>(x: T, ys: seq<T>, zs: seq<T>)
    ensures forall t :: t in Plane(x, ys, zs) <==> t.0 == x && t.1 in ys && t.2 in zs
  {
    if ys != [] {
      PlaneMembers(x, ys[1..], zs);
      assert forall y :: y in ys <==> y == ys[0] || y in ys[1..];
      forall t: (T, T, T) | t.0 == x && t.1 == ys[0] && t.2 in zs
        ensures t in Column(x, ys[0], zs)
      {
        var k :| 0 <= k < |zs| && zs[k] == t.2;
        assert Column(x, ys[0], zs)[k] == t;
      }
    }
  }

  lemma {:induction false} PlaneHead<T>(x: T, ys: seq<T>, zs: seq<T>, t: (T, T, T))
    requires t in Plane(x, ys, zs)
    ensures t.0 == x
  {
    PlaneMembers(x, ys, zs);
  }

  lemma {:induction false} CubeMembers<T>(xs: seq<T>, ys: seq<T>, zs: seq<T>)
    ensures forall t :: t in Cube(xs, ys, zs) <==> t.0 in xs && t.1 in ys && t.2 in zs
  {
    if xs != [] {
      CubeMembers(xs[1..], ys, zs);
      PlaneMembers(xs[0], ys, zs);
      assert forall x :: x in xs <==> x == xs[0] || x in xs[1..];
    }
  }

  lemma {:induction false} CubeAvoids<T>(xs: seq<T>, ys: seq<T>, zs: seq<T>, t: (T, T, T))
    requires t.0 !in xs
    ensures t !in Cube(xs, ys, zs)
  {
    CubeMembers(xs, ys, zs);
  }

  lemma {:induction false} PlaneDistinct<T>(x: T, ys: seq<T>, zs: seq<T>)
    requires Distinct(ys) && Distinct(zs)
    ensures Distinct(Plane(x, ys, zs))
  {
    if ys != [] {
      var col := Column(x, ys[0], zs);
      assert Distinct(ys[1..]);
      PlaneDistinct(x, ys[1..], zs);
      PlaneMembers(x, ys[1..], zs);
      assert ys[0] !in ys[1..];
      DistinctJoin(col, Plane(x, ys[1..], zs));
    }
  }

  lemma {:induction false} CubeDistinct<T>(xs: seq<T>, ys: seq<T>, zs: seq<T>)
    requires Distinct(xs) && Distinct(ys) && Distinct(zs)
    ensures Distinct(Cube(xs, ys, zs))
  {
    if xs != [] {
      assert Distinct(xs[1..]);
      PlaneDistinct(xs[0], ys, zs);
      CubeDistinct(xs[1..], ys, zs);
      PlaneMembers(xs[0], ys, zs);
      CubeMembers(xs[1..], ys, zs);
      assert xs[0] !in xs[1..];
      forall t: (T, T, T) | t in Plane(xs[0], ys, zs)
        ensures t !in Cube(xs[1..], ys, zs)
      {
        PlaneHead(xs[0], ys, zs, t);
        CubeAvoids(xs[1..], ys, zs, t);
      }
      DistinctJoin(Plane(xs[0], ys, zs), Cube(xs[1..], ys, zs));
    }
  }

  lemma {:induction false} DistinctJoin<T>(a: seq<T>, b: seq<T>)
    requires Distinct(a) && Distinct(b)
    requires forall x :: x in a ==> x !in b
    ensures Distinct(a + b)
  {
    forall i, j | 0 <= i < j < |a + b|
      ensures (a + b)[i] != (a + b)[j]
    {
      if j < |a| {
        assert (a + b)[i] == a[i] && (a + b)[j] == a[j];
      } else if i < |a| {
        assert (a + b)[i] == a[i] && (a + b)[j] == b[j - |a|];
        assert a[i] in a;
      } else {
        assert (a + b)[i] == b[i - |a|] && (a + b)[j] == b[j - |a|];
      }
    }
  }

  lemma {:induction false} IndexSplit(a: int, b: int, c: int, n: int)
    ensures (a * n + b) * n + c == a * (n * n) + (b * n + c)
    ensures n * (n * n) == n * n * n
  {
  }

  /** Position of the triple (lst[a], lst[b], lst[c]) in the nested i, j, k order over n = |lst| values. */
  function Position(a: nat, b: nat, c: nat, n: nat): nat {
    Offset(a, Offset(n, n)) + (Offset(b, n) + c)
  }

  /** The position is the row-major index (a * n + b) * n + c. */
  lemma {:induction false} PositionIsRowMajor(a: nat, b: nat, c: nat, n: nat)
    ensures Position(a, b, c, n) == (a * n + b) * n + c
    ensures Offset(n, Offset(n, n)) == n * n * n
  {
    OffsetIsProduct(b, n);
    OffsetIsProduct(n, n);
    OffsetIsProduct(a, n * n);
    OffsetIsProduct(n, n * n);
    IndexSplit(a, b, c, n);
  }

  /** gen_all_sim_tp returns |lst|^3 triples. */
  lemma {:induction false} GenAllSimTpLength<T>(lst: seq<T>)
    ensures |GenAllSimTp(lst)| == |lst| * |lst| * |lst|
  {
    CubeLength(lst, lst, lst);
    PositionIsRowMajor(0, 0, 0, |lst|);
  }

  /**
   * The triple at Position(a, b, c, |lst|), that is at (a * |lst| + b) * |lst| + c, of
   * gen_all_sim_tp is (lst[a], lst[b], lst[c]): the nested i, j, k order of the comprehension.
   */
  lemma {:induction false} GenAllSimTpAt<T>(lst: seq<T>, a: nat, b: nat, c: nat)
    requires a < |lst| && b < |lst| && c < |lst|
    ensures Position(a, b, c, |lst|) < |GenAllSimTp(lst)|
    ensures GenAllSimTp(lst)[Position(a, b, c, |lst|)] == (lst[a], lst[b], lst[c])
  {
    var n := |lst|;
    CubeTripleAt(lst, lst, lst, a, b, c);
    assert Position(a, b, c, n) == Offset(a, Offset(n, n)) + (Offset(b, n) + c);
  }

  /** Every triple over a repetition-free `lst` appears in gen_all_sim_tp exactly once, and nothing else does. */
  lemma {:induction false} GenAllSimTpExactlyOnce<T>(lst: seq<T>, t: (T, T, T))
    requires Distinct(lst)
    ensures t in GenAllSimTp(lst) <==> t.0 in lst && t.1 in lst && t.2 in lst
    ensures t in GenAllSimTp(lst) ==> multiset(GenAllSimTp(lst))[t] == 1
    ensures Distinct(GenAllSimTp(lst))
  {
    CubeMembers(lst, lst, lst);
    CubeDistinct(lst, lst, lst);
    DistinctAtMostOnce(GenAllSimTp(lst), t);
  }

  lemma {:induction false} CategoryListed(c: Category)
    ensures c in [High, Medium, Low]
  {
    match c
    case High => assert [High, Medium, Low][0] == c;
    case Medium => assert [High, Medium, Low][1] == c;
    case Low => assert [High, Medium, Low][2] == c;
  }

  /** The pattern space holds 27 distinct patterns and every pattern is among them. */
  lemma {:induction false} AllPatternsComplete()
    ensures |AllPatterns()| == 27
    ensures Distinct(AllPatterns())
    ensures forall p: Pattern :: p in AllPatterns()
  {
    var cats := [High, Medium, Low];
    CubeLength(cats, cats, cats);
    assert Offset(3, 3) == 9;
    assert Offset(3, 9) == 27;
    CubeMembers(cats, cats, cats);
    CubeDistinct(cats, cats, cats);
    forall p: Pattern
      ensures p in AllPatterns()
    {
      CategoryListed(p.0);
      CategoryListed(p.1);
      CategoryListed(p.2);
    }
  }
}
