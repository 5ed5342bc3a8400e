/**
 * The frequency estimator of record_linkage.py (compute_sim_tp_prop): the
 * share of training pairs that produce each similarity tuple.
 */
module Estimator {
  import opened SeqFacts
  import opened Patterns

  /** Every training pair names an existing row of each table (pandas iloc would raise otherwise). */
  predicate InBounds(trDb: seq<(nat, nat)>, restDb1: seq<Record>, restDb2: seq<Record>) {
    forall i :: 0 <= i < |trDb| ==> trDb[i].0 < |restDb1| && trDb[i].1 < |restDb2|
  }

  /** The similarity tuple of every training pair, in the order of the training table. */
  function TrainingPatterns(trDb: seq<(nat, nat)>, restDb1: seq<Record>, restDb2: seq<Record>, jw: Scorer): (ps: seq<Pattern>)
    requires InBounds(trDb, restDb1, restDb2)
    ensures |ps| == |trDb|
  {
    seq(|trDb|, i requires 0 <= i < |trDb| => SimilarityTuple(trDb[i].0, trDb[i].1, restDb1, restDb2, jw))
  }

  /** Every training pattern is a key of the table. */
  predicate AllListed(ps: seq<Pattern>, lst: seq<Pattern>) {
    forall i :: 0 <= i < |ps| ==> ps[i] in lst
  }

  /** `key` is the first training pattern that is not a key of the table. */
  predicate FirstUnlisted(ps: seq<Pattern>, lst: seq<Pattern>, key: Pattern) {
    exists i :: 0 <= i < |ps| && ps[i] == key && forall j :: 0 <= j < i ==> ps[j] in lst
  }

  /** count / n as an exact real, and 0 for an empty training set. */
  function Share(count: nat, n: nat): real {
    if n == 0 then 0.0 else count as real / n as real
  }

  /** For each pattern of `lst`, the fraction of the entries of `ps` equal to it. */
  function FrequencyTable(lst: seq<Pattern>, ps: seq<Pattern>): map<Pattern, real> {
    map p | p in lst :: Share(multiset(ps)[p], |ps|)
  }

  /** The update of one entry of compute_sim_tp_prop's dictionary: (d * n + 1) / n. */
  function Recurrence(v: real, n: nat): real
    requires n > 0
  {
    (v * n as real + 1.0) / n as real
  }

  /** Adding one hit through the recurrence adds 1/n to the share. */
  lemma {:induction false} ShareStep(count: nat, n: nat)
    requires count < n
    ensures Recurrence(Share(count, n), n) == Share(count + 1, n)
    ensures Share(count + 1, n) == Share(count, n) + Share(1, n)
  {
    var c, m := count as real, n as real;
    assert (c / m) * m == c;
  }

  lemma {:induction false} ShareBounds(count: nat, n: nat)
    requires count <= n
    ensures 0.0 <= Share(count, n) <= 1.0
    ensures Share(count, n) == 0.0 <==> count == 0 || n == 0
    ensures 0 < n ==> Share(n, n) == 1.0
  {
  }

  /**
   * compute_sim_tp_prop. The dictionary starts at 0 for every key of `lst`; each
   * training pair moves the entry of its tuple by the recurrence (d * n + 1) / n.
   * A tuple that is not a key raises KeyError, here the KeyError result.
   */
  method ComputeSimTpProp(trDb: seq<(nat, nat)>, lst: seq<Pattern>, restDb1: seq<Record>, restDb2: seq<Record>, jw: Scorer)
    returns (r: Result<map<Pattern, real>>)
    requires InBounds(trDb, restDb1, restDb2)
    ensures r.Ok? <==> AllListed(TrainingPatterns(trDb, restDb1, restDb2, jw), lst)
    ensures r.Ok? ==> r.value == FrequencyTable(lst, TrainingPatterns(trDb, restDb1, restDb2, jw))
    ensures r.KeyError? ==> r.key !in lst && FirstUnlisted(TrainingPatterns(trDb, restDb1, restDb2, jw), lst, r.key)
  {
    ghost var ps := TrainingPatterns(trDb, restDb1, restDb2, jw);
    var n := |trDb|;
    var d: map<Pattern, real> := map k | k in lst :: 0.0;
    PrefixTableStart(lst, ps);
    for i := 0 to n
      invariant d == PrefixTable(lst, ps, i)
      invariant forall j :: 0 <= j < i ==> ps[j] in lst
    {
      var index1, index2 := trDb[i].0, trDb[i].1;
      var tp := SimilarityTuple(index1, index2, restDb1, restDb2, jw);
      assert tp == ps[i];
      PrefixTableKeys(lst, ps, i, tp);
      if tp !in d {
        assert FirstUnlisted(ps, lst, tp) by {
          assert ps[i] == tp;
        }
        return KeyError(tp);
      }
      assert ps[i] in lst;
      assert forall j :: 0 <= j < i + 1 ==> ps[j] in lst;
      PrefixTableStep(lst, ps, i);
      d := d[tp := Recurrence(d[tp], n)];
    }
    assert ps[..n] == ps;
    return Ok(d);
  }

  /** The table has exactly the keys of `lst`. */
  lemma {:induction false} FrequencyKeys(lst: seq<Pattern>, ps: seq<Pattern>, p: Pattern)
    ensures p in FrequencyTable(lst, ps) <==> p in lst
  {
  }

  /** Every frequency lies between 0 and 1. */
  lemma {:induction false} FrequencyBounds(lst: seq<Pattern>, ps: seq<Pattern>, p: Pattern)
    requires p in lst
    ensures 0.0 <= FrequencyTable(lst, ps)[p] <= 1.0
  {
    assert multiset(ps)[p] <= |multiset(ps)| == |ps|;
    ShareBounds(multiset(ps)[p], |ps|);
  }

  /** A pattern that no training pair produces keeps its initial 0, and with no training pairs every value is 0. */
  lemma {:induction false} FrequencyUnseen(lst: seq<Pattern>, ps: seq<Pattern>, p: Pattern)
    requires p in lst
    ensures FrequencyTable(lst, ps)[p] == 0.0 <==> p !in ps
    ensures ps == [] ==> FrequencyTable(lst, ps)[p] == 0.0
  {
    assert multiset(ps)[p] <= |multiset(ps)| == |ps|;
    ShareBounds(multiset(ps)[p], |ps|);
  }

  lemma {:induction false} ConstantCount(ps: seq<Pattern>, q: Pattern)
    requires forall i :: 0 <= i < |ps| ==> ps[i] == q
    ensures multiset(ps)[q] == |ps|
  {
    if ps != [] {
      assert ps == [ps[0]] + ps[1..];
      ConstantCount(ps[1..], q);
    }
  }

  /** Every training pair produces `q`: `q` gets 1 and every other pattern 0. */
  lemma {:induction false} FrequencyUniform(lst: seq<Pattern>, ps: seq<Pattern>, q: Pattern, p: Pattern)
    requires ps != [] && forall i :: 0 <= i < |ps| ==> ps[i] == q
    requires p in lst
    ensures FrequencyTable(lst, ps)[p] == if p == q then 1.0 else 0.0
  {
    ConstantCount(ps, q);
    if p != q {
      assert p !in multiset(ps);
    }
    ShareBounds(multiset(ps)[p], |ps|);
  }

  lemma {:induction false} SumOverZero(s: seq<Pattern>, prob: map<Pattern, real>)
    requires forall x :: x in s ==> x in prob && prob[x] == 0.0
    ensures SumOver(s, prob) == 0.0
  {
    if s != [] {
      SumOverZero(s[1..], prob);
    }
  }

  /** Two tables that differ only at `q`, by `delta`: over keys where `q` occurs at most once, the sum differs by delta if `q` is among them. */
  lemma {:induction false} SumOverBump(s: seq<Pattern>, m1: map<Pattern, real>, m2: map<Pattern, real>, q: Pattern, delta: real)
    requires Distinct(s)
    requires forall x :: x in s ==> x in m1 && x in m2
    requires forall x :: x in s && x != q ==> m2[x] == m1[x]
    requires q in s ==> m2[q] == m1[q] + delta
    ensures SumOver(s, m2) == SumOver(s, m1) + (if q in s then delta else 0.0)
  {
    if s != [] {
      assert Distinct(s[1..]);
      SumOverBump(s[1..], m1, m2, q, delta);
      assert s[0] !in s[1..];
      assert q in s <==> q == s[0] || q in s[1..];
    }
  }

  /** The table of the first k training patterns, with every share taken over all n of them. */
  function PrefixTable(lst: seq<Pattern>, ps: seq<Pattern>, k: nat): map<Pattern, real>
    requires k <= |ps|
  {
    map p | p in lst :: Share(multiset(ps[..k])[p], |ps|)
  }

  lemma {:induction false} PrefixTableStart(lst: seq<Pattern>, ps: seq<Pattern>)
    ensures PrefixTable(lst, ps, 0) == map k | k in lst :: 0.0
  {
    assert ps[..0] == [];
  }

  lemma {:induction false} PrefixTableKeys(lst: seq<Pattern>, ps: seq<Pattern>, k: nat, p: Pattern)
    requires k <= |ps|
    ensures p in PrefixTable(lst, ps, k) <==> p in lst
  {
  }

  /** One more training pattern moves its entry by the recurrence of compute_sim_tp_prop and no other entry. */
  lemma {:induction false} PrefixTableStep(lst: seq<Pattern>, ps: seq<Pattern>, i: nat)
    requires i < |ps| && ps[i] in lst
    ensures PrefixTable(lst, ps, i + 1) ==
      PrefixTable(lst, ps, i)[ps[i] := Recurrence(PrefixTable(lst, ps, i)[ps[i]], |ps|)]
  {
    var q, n := ps[i], |ps|;
    var t, t' := PrefixTable(lst, ps, i), PrefixTable(lst, ps, i + 1);
    assert ps[..i + 1] == ps[..i] + [q];
    var c := multiset(ps[..i])[q];
    assert c < n by {
      assert c <= |ps[..i]|;
    }
    assert multiset(ps[..i + 1])[q] == c + 1;
    assert t[q] == Share(c, n) && t'[q] == Share(c + 1, n);
    ShareStep(c, n);
    var v := t'[q];
    forall p | p in lst && p != q
      ensures t'[p] == t[p]
    {
      assert multiset(ps[..i + 1])[p] == multiset(ps[..i])[p];
    }
    assert t' == t[q := v];
  }

  /** The shares of the first k training patterns sum to k / n. */
  lemma {:induction false} PartialSum(lst: seq<Pattern>, ps: seq<Pattern>, k: nat)
    requires Distinct(lst) && 0 < |ps| && k <= |ps|
    requires AllListed(ps, lst)
    ensures SumOver(lst, PrefixTable(lst, ps, k)) == Share(k, |ps|)
  {
    var n := |ps|;
    var t := PrefixTable(lst, ps, k);
    if k == 0 {
      SumOverZero(lst, t);
    } else {
      var t0 := PrefixTable(lst, ps, k - 1);
      var q := ps[k - 1];
      PartialSum(lst, ps, k - 1);
      PrefixTableStep(lst, ps, k - 1);
      assert multiset(ps[..k - 1])[q] < n by {
        assert multiset(ps[..k - 1])[q] <= |ps[..k - 1]|;
      }
      ShareStep(multiset(ps[..k - 1])[q], n);
      ShareStep(k - 1, n);
      SumOverBump(lst, t0, t, q, Share(1, n));
    }
  }

  /**
   * When every training pair produces a pattern of a repetition-free `lst`, the
   * frequencies over `lst` form a probability distribution: they sum to 1.
   */
  lemma {:induction false} FrequenciesSumToOne(lst: seq<Pattern>, ps: seq<Pattern>)
    requires Distinct(lst) && ps != []
    requires AllListed(ps, lst)
    ensures SumOver(lst, FrequencyTable(lst, ps)) == 1.0
  {
    PartialSum(lst, ps, |ps|);
    assert ps[..|ps|] == ps;
    assert PrefixTable(lst, ps, |ps|) == FrequencyTable(lst, ps);
    ShareBounds(|ps|, |ps|);
  }
}
