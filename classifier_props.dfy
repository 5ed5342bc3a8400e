/**
 * What label_sim_tp guarantees, proved about its reference definition
 * Classify: every pattern gets exactly one label, zero-evidence patterns are
 * "possible match", the patterns labelled "match" carry unmatch mass within
 * fprUb and those labelled "unmatch" carry match mass within fnrUb, and a
 * larger budget never shrinks the labelled region.
 */
module ClassifierProperties {
  import opened SeqFacts
  import opened Patterns
  import opened Classifier

  /** Every entry carries its pattern's values from the two tables. */
  predicate Faithful(es: seq<Entry>, matchProp: map<Pattern, real>, unmatchProp: map<Pattern, real>) {
    forall e :: e in es ==> e.0 in matchProp && e.0 in unmatchProp && e.1 == matchProp[e.0] && e.2 == unmatchProp[e.0]
  }

  /** The patterns of the entries, in order. */
  function PatSeq(es: seq<Entry>): (ps: seq<Pattern>)
    ensures |ps| == |es|
  {
    seq(|es|, i requires 0 <= i < |es| => es[i].0)
  }

  /** The patterns of `s`, in order, that `rv` labels `tag`. */
  function LabelledAs(s: seq<Pattern>, rv: map<Pattern, Label>, tag: Label): seq<Pattern> {
    if s == [] then []
    else (if s[0] in rv && rv[s[0]] == tag then [s[0]] else []) + LabelledAs(s[1..], rv, tag)
  }

  lemma {:induction false} PatSeqMembers(es: seq<Entry>)
    ensures forall x :: x in PatSeq(es) <==> x in Pats(es)
  {
    forall x | x in Pats(es)
      ensures x in PatSeq(es)
    {
      var e :| e in es && e.0 == x;
      var i :| 0 <= i < |es| && es[i] == e;
      assert PatSeq(es)[i] == x;
    }
  }

  lemma {:induction false} PatSeqConcat(a: seq<Entry>, b: seq<Entry>)
    ensures PatSeq(a + b) == PatSeq(a) + PatSeq(b)
  {
  }

  lemma {:induction false} PatSeqReverse(a: seq<Entry>)
    ensures PatSeq(Reverse(a)) == Reverse(PatSeq(a))
  {
  }

  /** In a repetition-free list of faithful entries no pattern occurs twice. */
  lemma {:induction false} FaithfulDistinct(es: seq<Entry>, matchProp: map<Pattern, real>, unmatchProp: map<Pattern, real>)
    requires Faithful(es, matchProp, unmatchProp) && Distinct(es)
    ensures Distinct(PatSeq(es))
  {
    forall i, j | 0 <= i < j < |es|
      ensures es[i].0 != es[j].0
    {
      assert es[i] in es && es[j] in es;
    }
  }

  lemma {:induction false} LabelledAsMembers(s: seq<Pattern>, rv: map<Pattern, Label>, tag: Label)
    ensures forall x :: x in LabelledAs(s, rv, tag) <==> x in s && x in rv && rv[x] == tag
    ensures Distinct(s) ==> Distinct(LabelledAs(s, rv, tag))
  {
    if s != [] {
      LabelledAsMembers(s[1..], rv, tag);
      assert forall x :: x in s <==> x == s[0] || x in s[1..];
      if Distinct(s) {
        assert Distinct(s[1..]);
        assert s[0] !in s[1..];
        var head := if s[0] in rv && rv[s[0]] == tag then [s[0]] else [];
        DistinctJoin(head, LabelledAs(s[1..], rv, tag));
      }
    }
  }

  /** The first loop keeps, in order, exactly the patterns with evidence, each with its table values. */
  lemma {:induction false} InformativeFacts(s: seq<Pattern>, matchProp: map<Pattern, real>, unmatchProp: map<Pattern, real>)
    requires Known(s, matchProp, unmatchProp)
    ensures Faithful(Informative(s, matchProp, unmatchProp), matchProp, unmatchProp)
    ensures forall tp :: tp in Pats(Informative(s, matchProp, unmatchProp)) <==> tp in s && !NoEvidence(tp, matchProp, unmatchProp)
    ensures Distinct(s) ==> Distinct(Informative(s, matchProp, unmatchProp))
  {
    if s != [] {
      var init, tp := s[..|s| - 1], s[|s| - 1];
      assert s == init + [tp];
      assert forall x :: x in s <==> x in init || x == tp;
      InformativeFacts(init, matchProp, unmatchProp);
      var a := Informative(init, matchProp, unmatchProp);
      var b: seq<Entry> := if NoEvidence(tp, matchProp, unmatchProp) then [] else [(tp, matchProp[tp], unmatchProp[tp])];
      assert Informative(s, matchProp, unmatchProp) == a + b;
      assert forall e :: e in a + b <==> e in a || e in b;
      forall x
        ensures x in Pats(a + b) <==> x in Pats(a) || x in Pats(b)
      {
        if x in Pats(a + b) {
          var e :| e in a + b && e.0 == x;
        }
        if x in Pats(a) {
          var e :| e in a && e.0 == x;
          assert e in a + b;
        }
        if x in Pats(b) {
          var e :| e in b && e.0 == x;
          assert e in a + b;
        }
      }
      if Distinct(s) {
        DistinctConcat(init, [tp]);
        forall e | e in a
          ensures e !in b
        {
          assert e.0 in Pats(a);
        }
        DistinctJoin(a, b);
      }
    }
  }

  /** The sorted list has the same entries as the unsorted one. */
  lemma {:induction false} SortedFacts(s: seq<Pattern>, matchProp: map<Pattern, real>, unmatchProp: map<Pattern, real>, sort: Sorter)
    requires Known(s, matchProp, unmatchProp) && Permutes(sort)
    ensures Faithful(SortedEntries(s, matchProp, unmatchProp, sort), matchProp, unmatchProp)
    ensures forall tp :: tp in Pats(SortedEntries(s, matchProp, unmatchProp, sort)) <==> tp in s && !NoEvidence(tp, matchProp, unmatchProp)
    ensures Distinct(s) ==> Distinct(SortedEntries(s, matchProp, unmatchProp, sort))
  {
    InformativeFacts(s, matchProp, unmatchProp);
    var lst := Informative(s, matchProp, unmatchProp);
    var sorted := SortedEntries(s, matchProp, unmatchProp, sort);
    assert multiset(sorted) == multiset(lst);
    assert forall e :: e in sorted <==> e in lst by {
      forall e
        ensures e in sorted <==> e in lst
      {
        assert e in sorted <==> e in multiset(sorted);
        assert e in lst <==> e in multiset(lst);
      }
    }
    assert Pats(sorted) == Pats(lst);
    if Distinct(s) {
      PermutationKeepsDistinct(lst, sorted);
    }
  }

  /**
   * The sorted list splits into the "match" prefix and a rest whose reversal
   * splits into the "unmatch" prefix and the undecided rest.
   */
  lemma {:induction false} Parts(s: seq<Pattern>, matchProp: map<Pattern, real>, unmatchProp: map<Pattern, real>, fprUb: real, fnrUb: real, sort: Sorter)
    requires Known(s, matchProp, unmatchProp)
    ensures var sorted := SortedEntries(s, matchProp, unmatchProp, sort);
      var m := MatchedEntries(s, matchProp, unmatchProp, fprUb, sort);
      sorted == m + sorted[|m|..] &&
      Leftover(s, matchProp, unmatchProp, fprUb, sort) == Reverse(sorted[|m|..]) &&
      Leftover(s, matchProp, unmatchProp, fprUb, sort) ==
        UnmatchedEntries(s, matchProp, unmatchProp, fprUb, fnrUb, sort) + UndecidedEntries(s, matchProp, unmatchProp, fprUb, fnrUb, sort)
  {
  }

  /** The three labelled parts together hold exactly the patterns with evidence. */
  lemma {:induction false} PartsCover(s: seq<Pattern>, matchProp: map<Pattern, real>, unmatchProp: map<Pattern, real>, fprUb: real, fnrUb: real, sort: Sorter)
    requires Known(s, matchProp, unmatchProp)
    ensures var m, u, d := MatchedEntries(s, matchProp, unmatchProp, fprUb, sort),
        UnmatchedEntries(s, matchProp, unmatchProp, fprUb, fnrUb, sort), UndecidedEntries(s, matchProp, unmatchProp, fprUb, fnrUb, sort);
      PatSeq(SortedEntries(s, matchProp, unmatchProp, sort)) == PatSeq(m) + Reverse(PatSeq(u) + PatSeq(d))
  {
    var sorted := SortedEntries(s, matchProp, unmatchProp, sort);
    var m := MatchedEntries(s, matchProp, unmatchProp, fprUb, sort);
    Parts(s, matchProp, unmatchProp, fprUb, fnrUb, sort);
    var rest := sorted[|m|..];
    PatSeqConcat(m, rest);
    PatSeqReverse(rest);
    PatSeqConcat(UnmatchedEntries(s, matchProp, unmatchProp, fprUb, fnrUb, sort), UndecidedEntries(s, matchProp, unmatchProp, fprUb, fnrUb, sort));
    assert Reverse(Reverse(PatSeq(rest))) == PatSeq(rest);
  }

  lemma {:induction false} ReverseMembers<T>(s: seq<T>)
    ensures forall x :: x in Reverse(s) <==> x in s
  {
    ReversePermutes(s);
    forall x
      ensures x in Reverse(s) <==> x in s
    {
      assert x in Reverse(s) <==> x in multiset(Reverse(s));
      assert x in s <==> x in multiset(s);
    }
  }

  /** Every pattern with evidence lands in exactly one of the three parts, with its table values. */
  lemma {:induction false} PartsMembers(s: seq<Pattern>, matchProp: map<Pattern, real>, unmatchProp: map<Pattern, real>, fprUb: real, fnrUb: real, sort: Sorter)
    requires Known(s, matchProp, unmatchProp) && Permutes(sort)
    ensures var m, u, d := MatchedEntries(s, matchProp, unmatchProp, fprUb, sort),
        UnmatchedEntries(s, matchProp, unmatchProp, fprUb, fnrUb, sort), UndecidedEntries(s, matchProp, unmatchProp, fprUb, fnrUb, sort);
      (forall tp :: tp in Pats(m) || tp in Pats(u) || tp in Pats(d) <==> tp in s && !NoEvidence(tp, matchProp, unmatchProp)) &&
      Faithful(m, matchProp, unmatchProp) && Faithful(u, matchProp, unmatchProp)
  {
    var sorted := SortedEntries(s, matchProp, unmatchProp, sort);
    var m, u, d := MatchedEntries(s, matchProp, unmatchProp, fprUb, sort),
      UnmatchedEntries(s, matchProp, unmatchProp, fprUb, fnrUb, sort), UndecidedEntries(s, matchProp, unmatchProp, fprUb, fnrUb, sort);
    SortedFacts(s, matchProp, unmatchProp, sort);
    PartsCover(s, matchProp, unmatchProp, fprUb, fnrUb, sort);
    Parts(s, matchProp, unmatchProp, fprUb, fnrUb, sort);
    var ud := PatSeq(u) + PatSeq(d);
    ReverseMembers(ud);
    PatSeqMembers(sorted);
    PatSeqMembers(m);
    PatSeqMembers(u);
    PatSeqMembers(d);
    assert forall x :: x in PatSeq(sorted) <==> x in PatSeq(m) || x in Reverse(ud);
    assert forall x :: x in ud <==> x in PatSeq(u) || x in PatSeq(d);
    assert forall e :: e in sorted <==> e in m || e in sorted[|m|..];
    ReverseMembers(sorted[|m|..]);
    assert forall e :: e in sorted[|m|..] <==> e in u || e in d;
  }

  /** Over a repetition-free input no pattern occurs twice in a part or in two parts. */
  lemma {:induction false} PartsDisjoint(s: seq<Pattern>, matchProp: map<Pattern, real>, unmatchProp: map<Pattern, real>, fprUb: real, fnrUb: real, sort: Sorter)
    requires Known(s, matchProp, unmatchProp) && Permutes(sort) && Distinct(s)
    ensures var m, u, d := MatchedEntries(s, matchProp, unmatchProp, fprUb, sort),
        UnmatchedEntries(s, matchProp, unmatchProp, fprUb, fnrUb, sort), UndecidedEntries(s, matchProp, unmatchProp, fprUb, fnrUb, sort);
      Distinct(PatSeq(m)) && Distinct(PatSeq(u)) &&
      (forall tp :: tp in Pats(m) ==> tp !in Pats(u) && tp !in Pats(d)) &&
      (forall tp :: tp in Pats(u) ==> tp !in Pats(d))
  {
    var sorted := SortedEntries(s, matchProp, unmatchProp, sort);
    var m, u, d := MatchedEntries(s, matchProp, unmatchProp, fprUb, sort),
      UnmatchedEntries(s, matchProp, unmatchProp, fprUb, fnrUb, sort), UndecidedEntries(s, matchProp, unmatchProp, fprUb, fnrUb, sort);
    SortedFacts(s, matchProp, unmatchProp, sort);
    PartsCover(s, matchProp, unmatchProp, fprUb, fnrUb, sort);
    var ud := PatSeq(u) + PatSeq(d);
    ReverseMembers(ud);
    PatSeqMembers(m);
    PatSeqMembers(u);
    PatSeqMembers(d);
    FaithfulDistinct(sorted, matchProp, unmatchProp);
    DistinctConcat(PatSeq(m), Reverse(ud));
    assert Reverse(Reverse(ud)) == ud;
    ReverseKeepsDistinct(Reverse(ud));
    DistinctConcat(PatSeq(u), PatSeq(d));
  }

  /** Every pattern of sim_tp_lst gets a label, and nothing else does. */
  lemma {:induction false} ClassifyTotal(s: seq<Pattern>, matchProp: map<Pattern, real>, unmatchProp: map<Pattern, real>, fprUb: real, fnrUb: real, sort: Sorter)
    requires Known(s, matchProp, unmatchProp) && Permutes(sort)
    ensures forall tp :: tp in Classify(s, matchProp, unmatchProp, fprUb, fnrUb, sort) <==> tp in s
  {
    PartsMembers(s, matchProp, unmatchProp, fprUb, fnrUb, sort);
  }

  /** A pattern neither training set produced is "possible match", whatever the budgets. */
  lemma {:induction false} ClassifyNoEvidence(s: seq<Pattern>, matchProp: map<Pattern, real>, unmatchProp: map<Pattern, real>, fprUb: real, fnrUb: real, sort: Sorter, tp: Pattern)
    requires Known(s, matchProp, unmatchProp) && Permutes(sort)
    requires tp in s && NoEvidence(tp, matchProp, unmatchProp)
    ensures Classify(s, matchProp, unmatchProp, fprUb, fnrUb, sort)[tp] == PossibleMatch
  {
    PartsMembers(s, matchProp, unmatchProp, fprUb, fnrUb, sort);
  }

  /**
   * Over a repetition-free sim_tp_lst the label of a pattern is decided by the
   * part it falls in: "match" for the prefix of the sorted list, "unmatch" for
   * the prefix of the reversed leftover, "possible match" for the rest and for
   * the zero-evidence patterns.
   */
  lemma {:induction false} ClassifyRegions(s: seq<Pattern>, matchProp: map<Pattern, real>, unmatchProp: map<Pattern, real>, fprUb: real, fnrUb: real, sort: Sorter, tp: Pattern)
    requires Known(s, matchProp, unmatchProp) && Permutes(sort) && Distinct(s)
    requires tp in s
    ensures var rv := Classify(s, matchProp, unmatchProp, fprUb, fnrUb, sort);
      tp in rv &&
      (rv[tp] == Match <==> tp in Pats(MatchedEntries(s, matchProp, unmatchProp, fprUb, sort))) &&
      (rv[tp] == Unmatch <==> tp in Pats(UnmatchedEntries(s, matchProp, unmatchProp, fprUb, fnrUb, sort))) &&
      (rv[tp] == PossibleMatch <==>
        NoEvidence(tp, matchProp, unmatchProp) || tp in Pats(UndecidedEntries(s, matchProp, unmatchProp, fprUb, fnrUb, sort)))
  {
    PartsMembers(s, matchProp, unmatchProp, fprUb, fnrUb, sort);
    PartsDisjoint(s, matchProp, unmatchProp, fprUb, fnrUb, sort);
  }

  /** Summing a table over the patterns of faithful entries is the walk's running sum. */
  lemma {:induction false} SumOverPatSeq(es: seq<Entry>, matchProp: map<Pattern, real>, unmatchProp: map<Pattern, real>, tag: Label)
    requires Faithful(es, matchProp, unmatchProp)
    ensures forall x :: x in PatSeq(es) ==> x in matchProp && x in unmatchProp
    ensures SumOver(PatSeq(es), if tag == Match then unmatchProp else matchProp) == Mass(es, tag)
  {
    PatSeqMembers(es);
    if es != [] {
      assert forall e :: e in es[1..] ==> e in es;
      SumOverPatSeq(es[1..], matchProp, unmatchProp, tag);
      assert PatSeq(es)[1..] == PatSeq(es[1..]);
      assert es == [es[0]] + es[1..];
      MassCons(es[0], es[1..], tag);
      assert es[0] in es;
    }
  }

  /** A labelled prefix never costs more than its budget (for a non-negative budget). */
  lemma {:induction false} PrefixWithinBudget(es: seq<Entry>, tag: Label, rate: real)
    requires 0.0 <= rate
    ensures Mass(es[..Fit(es, tag, rate)], tag) <= rate
  {
    FitWithinBudget(es, tag, rate);
    if Fit(es, tag, rate) == 0 {
      assert es[..0] == [];
    }
  }

  /** The patterns labelled `tag`, as a sequence, are a rearrangement of the patterns of `part`. */
  lemma {:induction false} LabelledAsPart(s: seq<Pattern>, rv: map<Pattern, Label>, tag: Label, part: seq<Entry>, prob: map<Pattern, real>)
    requires Distinct(s) && Distinct(PatSeq(part))
    requires forall tp :: tp in s ==> (tp in rv && rv[tp] == tag <==> tp in Pats(part))
    requires forall tp :: tp in Pats(part) ==> tp in s
    requires forall x :: x in PatSeq(part) ==> x in prob
    ensures forall x :: x in LabelledAs(s, rv, tag) ==> x in prob
    ensures SumOver(LabelledAs(s, rv, tag), prob) == SumOver(PatSeq(part), prob)
  {
    LabelledAsMembers(s, rv, tag);
    PatSeqMembers(part);
    DistinctSameElements(LabelledAs(s, rv, tag), PatSeq(part));
    SumOverPermutation(LabelledAs(s, rv, tag), PatSeq(part), prob);
  }

  /**
   * The false-positive budget: the unmatch probabilities of the patterns
   * labelled "match" sum to at most fprUb.
   */
  lemma {:induction false} MatchBudget(s: seq<Pattern>, matchProp: map<Pattern, real>, unmatchProp: map<Pattern, real>, fprUb: real, fnrUb: real, sort: Sorter)
    requires Known(s, matchProp, unmatchProp) && Permutes(sort) && Distinct(s)
    requires 0.0 <= fprUb
    ensures var rv := Classify(s, matchProp, unmatchProp, fprUb, fnrUb, sort);
      (forall x :: x in LabelledAs(s, rv, Match) ==> x in unmatchProp) &&
      SumOver(LabelledAs(s, rv, Match), unmatchProp) <= fprUb
  {
    var rv := Classify(s, matchProp, unmatchProp, fprUb, fnrUb, sort);
    var m := MatchedEntries(s, matchProp, unmatchProp, fprUb, sort);
    PartsMembers(s, matchProp, unmatchProp, fprUb, fnrUb, sort);
    PartsDisjoint(s, matchProp, unmatchProp, fprUb, fnrUb, sort);
    forall tp | tp in s
      ensures tp in rv && rv[tp] == Match <==> tp in Pats(m)
    {
      ClassifyRegions(s, matchProp, unmatchProp, fprUb, fnrUb, sort, tp);
    }
    SumOverPatSeq(m, matchProp, unmatchProp, Match);
    LabelledAsPart(s, rv, Match, m, unmatchProp);
    PrefixWithinBudget(SortedEntries(s, matchProp, unmatchProp, sort), Match, fprUb);
  }

  /**
   * The false-negative budget: the match probabilities of the patterns
   * labelled "unmatch" sum to at most fnrUb.
   */
  lemma {:induction false} UnmatchBudget(s: seq<Pattern>, matchProp: map<Pattern, real>, unmatchProp: map<Pattern, real>, fprUb: real, fnrUb: real, sort: Sorter)
    requires Known(s, matchProp, unmatchProp) && Permutes(sort) && Distinct(s)
    requires 0.0 <= fnrUb
    ensures var rv := Classify(s, matchProp, unmatchProp, fprUb, fnrUb, sort);
      (forall x :: x in LabelledAs(s, rv, Unmatch) ==> x in matchProp) &&
      SumOver(LabelledAs(s, rv, Unmatch), matchProp) <= fnrUb
  {
    var rv := Classify(s, matchProp, unmatchProp, fprUb, fnrUb, sort);
    var u := UnmatchedEntries(s, matchProp, unmatchProp, fprUb, fnrUb, sort);
    PartsMembers(s, matchProp, unmatchProp, fprUb, fnrUb, sort);
    PartsDisjoint(s, matchProp, unmatchProp, fprUb, fnrUb, sort);
    forall tp | tp in s
      ensures tp in rv && rv[tp] == Unmatch <==> tp in Pats(u)
    {
      ClassifyRegions(s, matchProp, unmatchProp, fprUb, fnrUb, sort, tp);
    }
    SumOverPatSeq(u, matchProp, unmatchProp, Unmatch);
    LabelledAsPart(s, rv, Unmatch, u, matchProp);
    PrefixWithinBudget(Leftover(s, matchProp, unmatchProp, fprUb, sort), Unmatch, fnrUb);
  }

  lemma {:induction false} PrefixPats(es: seq<Entry>, i: nat, j: nat)
    requires i <= j <= |es|
    ensures Pats(es[..i]) <= Pats(es[..j])
  {
    forall x | x in Pats(es[..i])
      ensures x in Pats(es[..j])
    {
      var e :| e in es[..i] && e.0 == x;
      var k :| 0 <= k < i && es[..i][k] == e;
      assert es[..j][k] == e;
    }
  }

  /** Raising fprUb never takes the "match" label away from a pattern. */
  lemma {:induction false} MatchMonotone(s: seq<Pattern>, matchProp: map<Pattern, real>, unmatchProp: map<Pattern, real>, fpr1: real, fpr2: real, fnrUb: real, sort: Sorter, tp: Pattern)
    requires Known(s, matchProp, unmatchProp) && Permutes(sort) && Distinct(s)
    requires fpr1 <= fpr2 && tp in s
    requires var rv := Classify(s, matchProp, unmatchProp, fpr1, fnrUb, sort); tp in rv && rv[tp] == Match
    ensures var rv := Classify(s, matchProp, unmatchProp, fpr2, fnrUb, sort); tp in rv && rv[tp] == Match
  {
    var sorted := SortedEntries(s, matchProp, unmatchProp, sort);
    ClassifyRegions(s, matchProp, unmatchProp, fpr1, fnrUb, sort, tp);
    ClassifyRegions(s, matchProp, unmatchProp, fpr2, fnrUb, sort, tp);
    FitMonotone(sorted, Match, fpr1, fpr2);
    PrefixPats(sorted, Fit(sorted, Match, fpr1), Fit(sorted, Match, fpr2));
  }

  /** With fprUb fixed, raising fnrUb never takes the "unmatch" label away from a pattern. */
  lemma {:induction false} UnmatchMonotone(s: seq<Pattern>, matchProp: map<Pattern, real>, unmatchProp: map<Pattern, real>, fprUb: real, fnr1: real, fnr2: real, sort: Sorter, tp: Pattern)
    requires Known(s, matchProp, unmatchProp) && Permutes(sort) && Distinct(s)
    requires fnr1 <= fnr2 && tp in s
    requires var rv := Classify(s, matchProp, unmatchProp, fprUb, fnr1, sort); tp in rv && rv[tp] == Unmatch
    ensures var rv := Classify(s, matchProp, unmatchProp, fprUb, fnr2, sort); tp in rv && rv[tp] == Unmatch
  {
    var rest := Leftover(s, matchProp, unmatchProp, fprUb, sort);
    ClassifyRegions(s, matchProp, unmatchProp, fprUb, fnr1, sort, tp);
    ClassifyRegions(s, matchProp, unmatchProp, fprUb, fnr2, sort, tp);
    FitMonotone(rest, Unmatch, fnr1, fnr2);
    PrefixPats(rest, Fit(rest, Unmatch, fnr1), Fit(rest, Unmatch, fnr2));
  }
}
