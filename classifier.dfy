/**
 * The classifier of record_linkage.py: label_match_unmatch, the greedy walk
 * that labels the longest prefix of a sorted list whose error mass stays
 * within a budget, and label_sim_tp, which runs it once for "match" over
 * the sorted list and once for "unmatch" over the reversed remainder.
 */
module Classifier {
  import opened SeqFacts
  import opened Patterns

  /** The three labels of the classifier. */
  datatype Label = Match | Unmatch | PossibleMatch

  /** The strings the source writes for the labels. */
  function LabelText(l: Label): string {
    match l
    case Match => "match"
    case Unmatch => "unmatch"
    case PossibleMatch => "possible match"
  }

  lemma {:induction false} LabelTextInjective(a: Label, b: Label)
    ensures LabelText(a) == LabelText(b) <==> a == b
  {
    if a != b {
      assert LabelText(a)[0] != LabelText(b)[0] || |LabelText(a)| != |LabelText(b)|;
    }
  }

  /** An entry (tp, m, u): a pattern with its match and unmatch probabilities. */
  type Entry = (Pattern, real, real)

  /** label_sim_tp's sort step (util.sort_prob_tuples), known only to reorder its input. */
  type Sorter = seq<Entry> -> seq<Entry>

  ghost predicate Permutes(sort: Sorter) {
    forall s :: multiset(sort(s)) == multiset(s)
  }

  /** The error an entry costs under `tag`: u when labelling "match", m otherwise. */
  function Weight(e: Entry, tag: Label): real {
    if tag == Match then e.2 else e.1
  }

  /** The running sum r of label_match_unmatch after the entries `es`. */
  function Mass(es: seq<Entry>, tag: Label): real {
    if es == [] then 0.0 else Mass(es[..|es| - 1], tag) + Weight(es[|es| - 1], tag)
  }

  /**
   * Reference definition of how many entries the walk labels: none if the
   * first entry alone exceeds the budget, otherwise one more than the walk
   * over the rest with the first entry's weight spent.
   */
  function Fit(es: seq<Entry>, tag: Label, rate: real): (c: nat)
    ensures c <= |es|
  {
    if es == [] || Weight(es[0], tag) > rate then 0
    else 1 + Fit(es[1..], tag, rate - Weight(es[0], tag))
  }

  /**
   * `c` entries are labelled: every running sum up to the c-th stays within
   * `rate`, and the next one, if any, exceeds it.
   */
  predicate WithinBudget(es: seq<Entry>, tag: Label, rate: real, c: nat) {
    c <= |es| &&
    (forall j :: 1 <= j <= c ==> Mass(es[..j], tag) <= rate) &&
    (c < |es| ==> Mass(es[..c + 1], tag) > rate)
  }

  /** The patterns of a list of entries. */
  function Pats(es: seq<Entry>): set<Pattern> {
    set e | e in es :: e.0
  }

  /** `dic` with every pattern of `es` set to `tag`, and nothing else changed. */
  function Relabel(dic: map<Pattern, Label>, es: seq<Entry>, tag: Label): map<Pattern, Label> {
    map k | k in dic.Keys + Pats(es) :: if k in Pats(es) then tag else dic[k]
  }

  lemma {:induction false} MassCons(e: Entry, es: seq<Entry>, tag: Label)
    ensures Mass([e] + es, tag) == Weight(e, tag) + Mass(es, tag)
  {
    if es != [] {
      var init := es[..|es| - 1];
      assert ([e] + es)[..|es|] == [e] + init;
      MassCons(e, init, tag);
    }
  }

  lemma {:induction false} MassConcat(a: seq<Entry>, b: seq<Entry>, tag: Label)
    ensures Mass(a + b, tag) == Mass(a, tag) + Mass(b, tag)
  {
    if b != [] {
      var init := b[..|b| - 1];
      assert (a + b)[..|a + b| - 1] == a + init;
      MassConcat(a, init, tag);
    } else {
      assert a + b == a;
    }
  }

  /** Fit labels exactly as many entries as the budget allows (the walk's break rule). */
  lemma {:induction false} FitWithinBudget(es: seq<Entry>, tag: Label, rate: real)
    ensures WithinBudget(es, tag, rate, Fit(es, tag, rate))
  {
    if es != [] {
      var w := Weight(es[0], tag);
      assert es[..1] == [es[0]] + [];
      MassCons(es[0], [], tag);
      if w <= rate {
        var rest := es[1..];
        FitWithinBudget(rest, tag, rate - w);
        var c := Fit(es, tag, rate);
        forall j | 1 <= j <= c + 1 && j <= |es|
          ensures Mass(es[..j], tag) == w + Mass(rest[..j - 1], tag)
        {
          assert es[..j] == [es[0]] + rest[..j - 1];
          MassCons(es[0], rest[..j - 1], tag);
        }
      }
    }
  }

  /** Only one count satisfies the break rule. */
  lemma {:induction false} BudgetUnique(es: seq<Entry>, tag: Label, rate: real, c: nat, d: nat)
    requires WithinBudget(es, tag, rate, c) && WithinBudget(es, tag, rate, d)
    ensures c == d
  {
  }

  lemma {:induction false} FitUnique(es: seq<Entry>, tag: Label, rate: real, c: nat)
    requires WithinBudget(es, tag, rate, c)
    ensures c == Fit(es, tag, rate)
  {
    FitWithinBudget(es, tag, rate);
    BudgetUnique(es, tag, rate, c, Fit(es, tag, rate));
  }

  /** A larger budget never labels a shorter prefix. */
  lemma {:induction false} FitMonotone(es: seq<Entry>, tag: Label, rate1: real, rate2: real)
    requires rate1 <= rate2
    ensures Fit(es, tag, rate1) <= Fit(es, tag, rate2)
  {
    if es != [] && Weight(es[0], tag) <= rate1 {
      var w := Weight(es[0], tag);
      FitMonotone(es[1..], tag, rate1 - w, rate2 - w);
    }
  }

  lemma {:induction false} MassNonNegativeGrows(es: seq<Entry>, tag: Label, i: nat, j: nat)
    requires i <= j <= |es|
    requires forall k :: 0 <= k < |es| ==> Weight(es[k], tag) >= 0.0
    ensures Mass(es[..i], tag) <= Mass(es[..j], tag)
  {
    if i < j {
      MassNonNegativeGrows(es, tag, i, j - 1);
      assert es[..j][..j - 1] == es[..j - 1];
    }
  }

  /**
   * With non-negative weights the labelled prefix is the longest prefix whose
   * total stays within `rate`: every longer prefix exceeds it.
   */
  lemma {:induction false} LongestPrefix(es: seq<Entry>, tag: Label, rate: real, j: nat)
    requires forall k :: 0 <= k < |es| ==> Weight(es[k], tag) >= 0.0
    requires 1 <= j <= |es|
    ensures Mass(es[..j], tag) <= rate <==> j <= Fit(es, tag, rate)
  {
    FitWithinBudget(es, tag, rate);
    var c := Fit(es, tag, rate);
    if j > c {
      MassNonNegativeGrows(es, tag, c + 1, j);
    }
  }

  lemma {:induction false} RelabelStep(dic: map<Pattern, Label>, es: seq<Entry>, e: Entry, tag: Label)
    ensures Relabel(dic, es + [e], tag) == Relabel(dic, es, tag)[e.0 := tag]
  {
    assert Pats(es + [e]) == Pats(es) + {e.0} by {
      forall k
        ensures k in Pats(es + [e]) <==> k in Pats(es) || k == e.0
      {
        if k in Pats(es + [e]) {
          var x :| x in es + [e] && x.0 == k;
          if x != e {
            assert x in es;
          }
        }
        if k in Pats(es) {
          var x :| x in es && x.0 == k;
          assert x in es + [e];
        }
        assert e in es + [e];
      }
    }
  }

  lemma {:induction false} RelabelEmpty(dic: map<Pattern, Label>, tag: Label)
    ensures Relabel(dic, [], tag) == dic
  {
  }

  /**
   * label_match_unmatch. Walks the entries in order, adding each one's weight
   * to the running sum and labelling its pattern while the sum stays within
   * `rate`; stops at the first entry that would exceed it. Returns the
   * unlabelled suffix and the updated dictionary.
   */
  method LabelMatchUnmatch(lst: seq<Entry>, rate: real, tag: Label, dic: map<Pattern, Label>)
    returns (rv: seq<Entry>, dic': map<Pattern, Label>)
    ensures rv == lst[Fit(lst, tag, rate)..]
    ensures dic' == Relabel(dic, lst[..Fit(lst, tag, rate)], tag)
  {
    var r, count := 0.0, 0;
    dic' := dic;
    assert lst[..0] == [];
    for idx := 0 to |lst|
      invariant count == idx
      invariant r == Mass(lst[..idx], tag)
      invariant forall j :: 1 <= j <= idx ==> Mass(lst[..j], tag) <= rate
      invariant dic' == Relabel(dic, lst[..idx], tag)
    {
      var (t, m, u) := lst[idx];
      assert lst[..idx + 1][..idx] == lst[..idx];
      r := r + if tag == Match then u else m;
      if r <= rate {
        RelabelStep(dic, lst[..idx], lst[idx], tag);
        assert lst[..idx + 1] == lst[..idx] + [lst[idx]];
        dic' := dic'[t := tag];
        count := count + 1;
      } else {
        break;
      }
    }
    FitUnique(lst, tag, rate, count);
    rv := if count < |lst| then lst[count..] else [];
  }

  /** Every pattern of `s` is a key of both probability tables (otherwise the lookup raises KeyError). */
  predicate Known(s: seq<Pattern>, matchProp: map<Pattern, real>, unmatchProp: map<Pattern, real>) {
    forall tp :: tp in s ==> tp in matchProp && tp in unmatchProp
  }

  /** A pattern that neither training set ever produced. */
  predicate NoEvidence(tp: Pattern, matchProp: map<Pattern, real>, unmatchProp: map<Pattern, real>)
    requires tp in matchProp && tp in unmatchProp
  {
    matchProp[tp] == 0.0 && unmatchProp[tp] == 0.0
  }

  /** The dictionary built by label_sim_tp's first loop: "possible match" for every pattern without evidence. */
  function ZeroLabels(s: seq<Pattern>, matchProp: map<Pattern, real>, unmatchProp: map<Pattern, real>): map<Pattern, Label>
    requires Known(s, matchProp, unmatchProp)
  {
    map tp | tp in s && NoEvidence(tp, matchProp, unmatchProp) :: PossibleMatch
  }

  /** The list built by label_sim_tp's first loop: an entry (tp, m, u) for every other pattern, in order. */
  function Informative(s: seq<Pattern>, matchProp: map<Pattern, real>, unmatchProp: map<Pattern, real>): seq<Entry>
    requires Known(s, matchProp, unmatchProp)
  {
    if s == [] then []
    else
      var tp := s[|s| - 1];
      Informative(s[..|s| - 1], matchProp, unmatchProp) +
        if NoEvidence(tp, matchProp, unmatchProp) then [] else [(tp, matchProp[tp], unmatchProp[tp])]
  }

  /** The informative entries after util.sort_prob_tuples, which only runs on a non-empty list. */
  function SortedEntries(s: seq<Pattern>, matchProp: map<Pattern, real>, unmatchProp: map<Pattern, real>, sort: Sorter): seq<Entry>
    requires Known(s, matchProp, unmatchProp)
  {
    var lst := Informative(s, matchProp, unmatchProp);
    if lst == [] then [] else sort(lst)
  }

  /** The prefix the "match" pass labels. */
  function MatchedEntries(s: seq<Pattern>, matchProp: map<Pattern, real>, unmatchProp: map<Pattern, real>, fprUb: real, sort: Sorter): seq<Entry>
    requires Known(s, matchProp, unmatchProp)
  {
    var sorted := SortedEntries(s, matchProp, unmatchProp, sort);
    sorted[..Fit(sorted, Match, fprUb)]
  }

  /** What the "match" pass leaves, reversed: the list the "unmatch" pass walks. */
  function Leftover(s: seq<Pattern>, matchProp: map<Pattern, real>, unmatchProp: map<Pattern, real>, fprUb: real, sort: Sorter): seq<Entry>
    requires Known(s, matchProp, unmatchProp)
  {
    var sorted := SortedEntries(s, matchProp, unmatchProp, sort);
    Reverse(sorted[Fit(sorted, Match, fprUb)..])
  }

  /** The prefix of the leftover list the "unmatch" pass labels. */
  function UnmatchedEntries(s: seq<Pattern>, matchProp: map<Pattern, real>, unmatchProp: map<Pattern, real>, fprUb: real, fnrUb: real, sort: Sorter): seq<Entry>
    requires Known(s, matchProp, unmatchProp)
  {
    var rest := Leftover(s, matchProp, unmatchProp, fprUb, sort);
    rest[..Fit(rest, Unmatch, fnrUb)]
  }

  /** What both passes leave: labelled "possible match" at the end. */
  function UndecidedEntries(s: seq<Pattern>, matchProp: map<Pattern, real>, unmatchProp: map<Pattern, real>, fprUb: real, fnrUb: real, sort: Sorter): seq<Entry>
    requires Known(s, matchProp, unmatchProp)
  {
    var rest := Leftover(s, matchProp, unmatchProp, fprUb, sort);
    rest[Fit(rest, Unmatch, fnrUb)..]
  }

  /**
   * The label dictionary label_sim_tp returns, stated through the reference
   * definitions: the zero-evidence patterns, then the "match" prefix, the
   * "unmatch" prefix of the reversed leftover, and the rest as "possible match".
   */
  function Classify(s: seq<Pattern>, matchProp: map<Pattern, real>, unmatchProp: map<Pattern, real>, fprUb: real, fnrUb: real, sort: Sorter): map<Pattern, Label>
    requires Known(s, matchProp, unmatchProp)
  {
    var rv0 := ZeroLabels(s, matchProp, unmatchProp);
    var rv1 := Relabel(rv0, MatchedEntries(s, matchProp, unmatchProp, fprUb, sort), Match);
    var rv2 := Relabel(rv1, UnmatchedEntries(s, matchProp, unmatchProp, fprUb, fnrUb, sort), Unmatch);
    Relabel(rv2, UndecidedEntries(s, matchProp, unmatchProp, fprUb, fnrUb, sort), PossibleMatch)
  }

  lemma {:induction false} ZeroLabelsStep(s: seq<Pattern>, tp: Pattern, matchProp: map<Pattern, real>, unmatchProp: map<Pattern, real>)
    requires Known(s + [tp], matchProp, unmatchProp)
    ensures ZeroLabels(s + [tp], matchProp, unmatchProp) ==
      if NoEvidence(tp, matchProp, unmatchProp) then ZeroLabels(s, matchProp, unmatchProp)[tp := PossibleMatch]
      else ZeroLabels(s, matchProp, unmatchProp)
  {
    assert forall x :: x in s + [tp] <==> x in s || x == tp;
  }

  /**
   * The first loop of label_sim_tp: looks every pattern up in both tables
   * (KeyError on the first missing one), labels each zero-evidence pattern
   * "possible match" and collects the others as (tp, m, u) entries.
   */
  method SplitByEvidence(simTpLst: seq<Pattern>, matchProp: map<Pattern, real>, unmatchProp: map<Pattern, real>)
    returns (r: Result<(map<Pattern, Label>, seq<Entry>)>)
    ensures r.Ok? <==> Known(simTpLst, matchProp, unmatchProp)
    ensures r.Ok? ==> r.value == (ZeroLabels(simTpLst, matchProp, unmatchProp), Informative(simTpLst, matchProp, unmatchProp))
    ensures r.KeyError? ==> r.key !in matchProp || r.key !in unmatchProp
    ensures r.KeyError? ==>
      exists i :: 0 <= i < |simTpLst| && simTpLst[i] == r.key && Known(simTpLst[..i], matchProp, unmatchProp)
  {
    var rv: map<Pattern, Label> := map[];
    var lst: seq<Entry> := [];
    for i := 0 to |simTpLst|
      invariant Known(simTpLst[..i], matchProp, unmatchProp)
      invariant rv == ZeroLabels(simTpLst[..i], matchProp, unmatchProp)
      invariant lst == Informative(simTpLst[..i], matchProp, unmatchProp)
    {
      var tp := simTpLst[i];
      if tp !in matchProp || tp !in unmatchProp {
        assert simTpLst[i] == tp && Known(simTpLst[..i], matchProp, unmatchProp);
        return KeyError(tp);
      }
      var m, u := matchProp[tp], unmatchProp[tp];
      assert simTpLst[..i + 1] == simTpLst[..i] + [tp];
      assert simTpLst[..i + 1][..i] == simTpLst[..i];
      ZeroLabelsStep(simTpLst[..i], tp, matchProp, unmatchProp);
      if m == 0.0 && u == 0.0 {
        rv := rv[tp := PossibleMatch];
      } else {
        lst := lst + [(tp, m, u)];
      }
    }
    assert simTpLst[..|simTpLst|] == simTpLst;
    return Ok((rv, lst));
  }

  /** The last loop of label_sim_tp: every pattern left by both passes becomes "possible match". */
  method MarkPossibleMatch(rv: map<Pattern, Label>, finalLst: seq<Entry>) returns (rv': map<Pattern, Label>)
    ensures rv' == Relabel(rv, finalLst, PossibleMatch)
  {
    rv' := rv;
    assert finalLst[..0] == [];
    for k := 0 to |finalLst|
      invariant rv' == Relabel(rv, finalLst[..k], PossibleMatch)
    {
      RelabelStep(rv, finalLst[..k], finalLst[k], PossibleMatch);
      assert finalLst[..k + 1] == finalLst[..k] + [finalLst[k]];
      rv' := rv'[finalLst[k].0 := PossibleMatch];
    }
    assert finalLst[..|finalLst|] == finalLst;
  }

  /**
   * label_sim_tp: the first loop, then the "match" pass over the sorted
   * entries within fprUb, the "unmatch" pass over the reversed leftover
   * within fnrUb, and "possible match" for whatever is left.
   */
  method LabelSimTp(simTpLst: seq<Pattern>, matchProp: map<Pattern, real>, unmatchProp: map<Pattern, real>, fprUb: real, fnrUb: real, sort: Sorter)
    returns (r: Result<map<Pattern, Label>>)
    ensures r.Ok? <==> Known(simTpLst, matchProp, unmatchProp)
    ensures r.Ok? ==> r.value == Classify(simTpLst, matchProp, unmatchProp, fprUb, fnrUb, sort)
    ensures r.KeyError? ==> r.key !in matchProp || r.key !in unmatchProp
    ensures r.KeyError? ==>
      exists i :: 0 <= i < |simTpLst| && simTpLst[i] == r.key && Known(simTpLst[..i], matchProp, unmatchProp)
  {
    var split := SplitByEvidence(simTpLst, matchProp, unmatchProp);
    if split.KeyError? {
      return KeyError(split.key);
    }
    var (rv, lst) := split.value;
    if |lst| > 0 {
      var sortedLst := sort(lst);
      var updatedLst;
      updatedLst, rv := LabelMatchUnmatch(sortedLst, fprUb, Match, rv);
      if |updatedLst| > 0 {
        var finalLst;
        finalLst, rv := LabelMatchUnmatch(Reverse(updatedLst), fnrUb, Unmatch, rv);
        if |finalLst| > 0 {
          rv := MarkPossibleMatch(rv, finalLst);
        } else {
          RelabelEmpty(rv, PossibleMatch);
        }
      } else {
        assert Reverse(updatedLst) == [];
        RelabelEmpty(rv, Unmatch);
        RelabelEmpty(rv, PossibleMatch);
      }
    } else {
      RelabelEmpty(rv, Match);
      RelabelEmpty(rv, Unmatch);
      RelabelEmpty(rv, PossibleMatch);
    }
    return Ok(rv);
  }
}
