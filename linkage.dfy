/**
 * The top of record_linkage.py: generate_label_dic, which trains the two
 * probability tables over the 27 patterns and classifies them, and
 * write_row, which scores every candidate pair of the two restaurant tables
 * and emits one (i, j, label) row per pair.
 */
module Linkage {
  import opened SeqFacts
  import opened Patterns
  import opened Estimator
  import opened Classifier
  import opened ClassifierProperties

  /** Both frequency tables of generate_label_dic have every pattern as a key. */
  lemma {:induction false} TrainedTablesKnown(ps1: seq<Pattern>, ps2: seq<Pattern>)
    ensures Known(AllPatterns(), FrequencyTable(AllPatterns(), ps1), FrequencyTable(AllPatterns(), ps2))
  {
    AllPatternsComplete();
  }

  /** The dictionary generate_label_dic returns, stated through the reference definitions. */
  function TrainedLabels(trDb1: seq<(nat, nat)>, trDb2: seq<(nat, nat)>, restDb1: seq<Record>, restDb2: seq<Record>,
                         mu: real, lambda: real, jw: Scorer, sort: Sorter): map<Pattern, Label>
    requires InBounds(trDb1, restDb1, restDb2) && InBounds(trDb2, restDb1, restDb2)
  {
    var lst := AllPatterns();
    var mProp := FrequencyTable(lst, TrainingPatterns(trDb1, restDb1, restDb2, jw));
    var uProp := FrequencyTable(lst, TrainingPatterns(trDb2, restDb1, restDb2, jw));
    TrainedTablesKnown(TrainingPatterns(trDb1, restDb1, restDb2, jw), TrainingPatterns(trDb2, restDb1, restDb2, jw));
    Classify(lst, mProp, uProp, mu, lambda, sort)
  }

  /**
   * generate_label_dic. The pattern list holds every pattern, so neither
   * estimate nor the classifier can raise KeyError; with a sort that only
   * reorders, every one of the 27 patterns gets a label.
   */
  method GenerateLabelDic(trDb1: seq<(nat, nat)>, trDb2: seq<(nat, nat)>, restDb1: seq<Record>, restDb2: seq<Record>,
                          mu: real, lambda: real, jw: Scorer, sort: Sorter)
    returns (labels: map<Pattern, Label>)
    requires InBounds(trDb1, restDb1, restDb2) && InBounds(trDb2, restDb1, restDb2)
    ensures labels == TrainedLabels(trDb1, trDb2, restDb1, restDb2, mu, lambda, jw, sort)
    ensures Permutes(sort) ==> forall p: Pattern :: p in labels
  {
    AllPatternsComplete();
    var lst := GenAllSimTp([High, Medium, Low]);
    var mProp := ComputeSimTpProp(trDb1, lst, restDb1, restDb2, jw);
    var uProp := ComputeSimTpProp(trDb2, lst, restDb1, restDb2, jw);
    assert mProp.Ok? && uProp.Ok?;
    TrainedTablesKnown(TrainingPatterns(trDb1, restDb1, restDb2, jw), TrainingPatterns(trDb2, restDb1, restDb2, jw));
    var r := LabelSimTp(lst, mProp.value, uProp.value, mu, lambda, sort);
    assert r.Ok?;
    labels := r.value;
    if Permutes(sort) {
      ClassifyTotal(lst, mProp.value, uProp.value, mu, lambda, sort);
    }
  }

  /** One output row: [i, j, label]. */
  datatype Row = Row(i: nat, j: nat, verdict: Label)

  /** How the scoring loop ended: after every pair, or at a pattern missing from the dictionary (KeyError). */
  datatype Outcome = Done | Aborted(key: Pattern)

  /** Whether write_row scores the pair: always, or with blocking only when the city columns agree. */
  predicate Kept(i: nat, j: nat, blockOnCity: bool, restDb1: seq<Record>, restDb2: seq<Record>)
    requires i < |restDb1| && j < |restDb2|
  {
    !blockOnCity || restDb1[i].city == restDb2[j].city
  }

  /** The pairs (i, j') with j' < j that row i of the first table contributes, in order. */
  function RowPairs(i: nat, j: nat, blockOnCity: bool, restDb1: seq<Record>, restDb2: seq<Record>): seq<(nat, nat)>
    requires i < |restDb1| && j <= |restDb2|
  {
    if j == 0 then []
    else
      RowPairs(i, j - 1, blockOnCity, restDb1, restDb2) +
        if Kept(i, j - 1, blockOnCity, restDb1, restDb2) then [(i, j - 1)] else []
  }

  /** The pairs the first i rows of the first table contribute, in order. */
  function PairsUpTo(i: nat, blockOnCity: bool, restDb1: seq<Record>, restDb2: seq<Record>): seq<(nat, nat)>
    requires i <= |restDb1|
  {
    if i == 0 then []
    else PairsUpTo(i - 1, blockOnCity, restDb1, restDb2) + RowPairs(i - 1, |restDb2|, blockOnCity, restDb1, restDb2)
  }

  /** Every pair write_row scores, in the order of its nested loops. */
  function Candidates(blockOnCity: bool, restDb1: seq<Record>, restDb2: seq<Record>): seq<(nat, nat)> {
    PairsUpTo(|restDb1|, blockOnCity, restDb1, restDb2)
  }

  predicate PairsInBounds(ps: seq<(nat, nat)>, restDb1: seq<Record>, restDb2: seq<Record>) {
    forall k :: 0 <= k < |ps| ==> ps[k].0 < |restDb1| && ps[k].1 < |restDb2|
  }

  /**
   * The rows written for the pairs `ps`, and how writing ended: a row per pair
   * until the first pair whose pattern is not in `labels`.
   */
  function Emit(ps: seq<(nat, nat)>, labels: map<Pattern, Label>, restDb1: seq<Record>, restDb2: seq<Record>, jw: Scorer): (seq<Row>, Outcome)
    requires PairsInBounds(ps, restDb1, restDb2)
  {
    if ps == [] then ([], Done)
    else
      var prev := Emit(ps[..|ps| - 1], labels, restDb1, restDb2, jw);
      var p := ps[|ps| - 1];
      var t := SimilarityTuple(p.0, p.1, restDb1, restDb2, jw);
      if prev.1.Aborted? then prev
      else if t !in labels then (prev.0, Aborted(t))
      else (prev.0 + [Row(p.0, p.1, labels[t])], Done)
  }

  /** The order of write_row's loops: i first, then j. */
  predicate Before(p: (nat, nat), q: (nat, nat)) {
    p.0 < q.0 || (p.0 == q.0 && p.1 < q.1)
  }

  predicate Ascending(ps: seq<(nat, nat)>) {
    forall x, y :: 0 <= x < y < |ps| ==> Before(ps[x], ps[y])
  }

  lemma {:induction false} AscendingJoin(a: seq<(nat, nat)>, b: seq<(nat, nat)>)
    requires Ascending(a) && Ascending(b)
    requires forall p, q :: p in a && q in b ==> Before(p, q)
    ensures Ascending(a + b)
  {
    forall x, y | 0 <= x < y < |a + b|
      ensures Before((a + b)[x], (a + b)[y])
    {
      if y < |a| {
        assert (a + b)[x] == a[x] && (a + b)[y] == a[y];
      } else if x < |a| {
        assert (a + b)[x] == a[x] && (a + b)[y] == b[y - |a|];
        assert a[x] in a && b[y - |a|] in b;
      } else {
        assert (a + b)[x] == b[x - |a|] && (a + b)[y] == b[y - |a|];
      }
    }
  }

  lemma {:induction false} RowPairsMembers(i: nat, j: nat, blockOnCity: bool, restDb1: seq<Record>, restDb2: seq<Record>)
    requires i < |restDb1| && j <= |restDb2|
    ensures forall x :: x in RowPairs(i, j, blockOnCity, restDb1, restDb2) <==>
      x.0 == i && x.1 < j && Kept(i, x.1, blockOnCity, restDb1, restDb2)
  {
    if j > 0 {
      RowPairsMembers(i, j - 1, blockOnCity, restDb1, restDb2);
    }
  }

  lemma {:induction false} RowPairsAscending(i: nat, j: nat, blockOnCity: bool, restDb1: seq<Record>, restDb2: seq<Record>)
    requires i < |restDb1| && j <= |restDb2|
    ensures Ascending(RowPairs(i, j, blockOnCity, restDb1, restDb2))
  {
    if j > 0 {
      RowPairsAscending(i, j - 1, blockOnCity, restDb1, restDb2);
      RowPairsMembers(i, j - 1, blockOnCity, restDb1, restDb2);
      var b: seq<(nat, nat)> := if Kept(i, j - 1, blockOnCity, restDb1, restDb2) then [(i, j - 1)] else [];
      AscendingJoin(RowPairs(i, j - 1, blockOnCity, restDb1, restDb2), b);
    }
  }

  lemma {:induction false} RowPairsCount(i: nat, j: nat, restDb1: seq<Record>, restDb2: seq<Record>)
    requires i < |restDb1| && j <= |restDb2|
    ensures |RowPairs(i, j, false, restDb1, restDb2)| == j
  {
    if j > 0 {
      RowPairsCount(i, j - 1, restDb1, restDb2);
    }
  }

  lemma {:induction false} PairsMembers(i: nat, blockOnCity: bool, restDb1: seq<Record>, restDb2: seq<Record>)
    requires i <= |restDb1|
    ensures forall x :: x in PairsUpTo(i, blockOnCity, restDb1, restDb2) <==>
      x.0 < i && x.1 < |restDb2| && Kept(x.0, x.1, blockOnCity, restDb1, restDb2)
  {
    if i > 0 {
      PairsMembers(i - 1, blockOnCity, restDb1, restDb2);
      RowPairsMembers(i - 1, |restDb2|, blockOnCity, restDb1, restDb2);
    }
  }

  lemma {:induction false} PairsAscending(i: nat, blockOnCity: bool, restDb1: seq<Record>, restDb2: seq<Record>)
    requires i <= |restDb1|
    ensures Ascending(PairsUpTo(i, blockOnCity, restDb1, restDb2))
  {
    if i > 0 {
      PairsAscending(i - 1, blockOnCity, restDb1, restDb2);
      RowPairsAscending(i - 1, |restDb2|, blockOnCity, restDb1, restDb2);
      PairsMembers(i - 1, blockOnCity, restDb1, restDb2);
      RowPairsMembers(i - 1, |restDb2|, blockOnCity, restDb1, restDb2);
      AscendingJoin(PairsUpTo(i - 1, blockOnCity, restDb1, restDb2), RowPairs(i - 1, |restDb2|, blockOnCity, restDb1, restDb2));
    }
  }

  lemma {:induction false} PairsCount(i: nat, restDb1: seq<Record>, restDb2: seq<Record>)
    requires i <= |restDb1|
    ensures |PairsUpTo(i, false, restDb1, restDb2)| == Offset(i, |restDb2|)
  {
    if i > 0 {
      PairsCount(i - 1, restDb1, restDb2);
      RowPairsCount(i - 1, |restDb2|, restDb1, restDb2);
    }
  }

  /** The pairs scored before (i, j) all index existing rows. */
  lemma {:induction false} ScoredInBounds(i: nat, j: nat, blockOnCity: bool, restDb1: seq<Record>, restDb2: seq<Record>)
    requires i < |restDb1| && j <= |restDb2|
    ensures PairsInBounds(PairsUpTo(i, blockOnCity, restDb1, restDb2), restDb1, restDb2)
    ensures PairsInBounds(PairsUpTo(i, blockOnCity, restDb1, restDb2) + RowPairs(i, j, blockOnCity, restDb1, restDb2), restDb1, restDb2)
  {
    PairsMembers(i, blockOnCity, restDb1, restDb2);
    RowPairsMembers(i, j, blockOnCity, restDb1, restDb2);
    var ps := PairsUpTo(i, blockOnCity, restDb1, restDb2) + RowPairs(i, j, blockOnCity, restDb1, restDb2);
    forall k | 0 <= k < |ps|
      ensures ps[k].0 < |restDb1| && ps[k].1 < |restDb2|
    {
      assert ps[k] in ps;
    }
  }

  /**
   * write_row's pairs: exactly the in-range pairs that blocking keeps, each
   * once, in ascending i then ascending j order; without blocking, all
   * |restDb1| * |restDb2| of them.
   */
  lemma {:induction false} CandidatesFacts(blockOnCity: bool, restDb1: seq<Record>, restDb2: seq<Record>)
    ensures PairsInBounds(Candidates(blockOnCity, restDb1, restDb2), restDb1, restDb2)
    ensures forall x :: x in Candidates(blockOnCity, restDb1, restDb2) <==>
      x.0 < |restDb1| && x.1 < |restDb2| && Kept(x.0, x.1, blockOnCity, restDb1, restDb2)
    ensures Ascending(Candidates(blockOnCity, restDb1, restDb2))
    ensures !blockOnCity ==> |Candidates(blockOnCity, restDb1, restDb2)| == |restDb1| * |restDb2|
  {
    var ps := Candidates(blockOnCity, restDb1, restDb2);
    PairsMembers(|restDb1|, blockOnCity, restDb1, restDb2);
    PairsAscending(|restDb1|, blockOnCity, restDb1, restDb2);
    forall k | 0 <= k < |ps|
      ensures ps[k].0 < |restDb1| && ps[k].1 < |restDb2|
    {
      assert ps[k] in ps;
    }
    if !blockOnCity {
      PairsCount(|restDb1|, restDb1, restDb2);
      OffsetIsProduct(|restDb1|, |restDb2|);
    }
  }

  /** One more pair after a normal run: a row when its pattern is known, otherwise the run stops at that pattern. */
  lemma {:induction false} EmitSnoc(a: seq<(nat, nat)>, p: (nat, nat), labels: map<Pattern, Label>, restDb1: seq<Record>, restDb2: seq<Record>, jw: Scorer)
    requires PairsInBounds(a, restDb1, restDb2) && p.0 < |restDb1| && p.1 < |restDb2|
    requires Emit(a, labels, restDb1, restDb2, jw).1 == Done
    ensures PairsInBounds(a + [p], restDb1, restDb2)
    ensures var t := SimilarityTuple(p.0, p.1, restDb1, restDb2, jw);
      Emit(a + [p], labels, restDb1, restDb2, jw) ==
        if t in labels then (Emit(a, labels, restDb1, restDb2, jw).0 + [Row(p.0, p.1, labels[t])], Done)
        else (Emit(a, labels, restDb1, restDb2, jw).0, Aborted(t))
  {
    assert (a + [p])[..|a + [p]| - 1] == a;
  }

  /** The next column of row i adds the pair exactly when blocking keeps it. */
  lemma {:induction false} RowPairsStep(i: nat, j: nat, blockOnCity: bool, restDb1: seq<Record>, restDb2: seq<Record>, done: seq<(nat, nat)>)
    requires i < |restDb1| && j < |restDb2|
    ensures done + RowPairs(i, j + 1, blockOnCity, restDb1, restDb2) ==
      if Kept(i, j, blockOnCity, restDb1, restDb2) then done + RowPairs(i, j, blockOnCity, restDb1, restDb2) + [(i, j)]
      else done + RowPairs(i, j, blockOnCity, restDb1, restDb2)
  {
  }

  /** Once writing has stopped at a missing pattern, later pairs change nothing. */
  lemma {:induction false} EmitAbortedStays(a: seq<(nat, nat)>, b: seq<(nat, nat)>, labels: map<Pattern, Label>, restDb1: seq<Record>, restDb2: seq<Record>, jw: Scorer)
    requires PairsInBounds(a + b, restDb1, restDb2)
    requires PairsInBounds(a, restDb1, restDb2)
    requires Emit(a, labels, restDb1, restDb2, jw).1.Aborted?
    ensures Emit(a + b, labels, restDb1, restDb2, jw) == Emit(a, labels, restDb1, restDb2, jw)
  {
    if b != [] {
      var init := b[..|b| - 1];
      assert (a + b)[..|a + b| - 1] == a + init;
      EmitAbortedStays(a, init, labels, restDb1, restDb2, jw);
    } else {
      assert a + b == a;
    }
  }

  /**
   * When every scored pattern is in the dictionary, writing ends normally
   * with one row [i, j, labels[similarity_tuple(i, j)]] per pair, in order.
   */
  lemma {:induction false} EmitComplete(ps: seq<(nat, nat)>, labels: map<Pattern, Label>, restDb1: seq<Record>, restDb2: seq<Record>, jw: Scorer)
    requires PairsInBounds(ps, restDb1, restDb2)
    requires forall k :: 0 <= k < |ps| ==> SimilarityTuple(ps[k].0, ps[k].1, restDb1, restDb2, jw) in labels
    ensures Emit(ps, labels, restDb1, restDb2, jw).1 == Done
    ensures |Emit(ps, labels, restDb1, restDb2, jw).0| == |ps|
    ensures forall k :: 0 <= k < |ps| ==>
      Emit(ps, labels, restDb1, restDb2, jw).0[k] == Row(ps[k].0, ps[k].1, labels[SimilarityTuple(ps[k].0, ps[k].1, restDb1, restDb2, jw)])
  {
    if ps != [] {
      var init := ps[..|ps| - 1];
      EmitComplete(init, labels, restDb1, restDb2, jw);
    }
  }

  /** Writing stops exactly when some scored pattern is missing, and it names a missing pattern. */
  lemma {:induction false} EmitAborts(ps: seq<(nat, nat)>, labels: map<Pattern, Label>, restDb1: seq<Record>, restDb2: seq<Record>, jw: Scorer)
    requires PairsInBounds(ps, restDb1, restDb2)
    ensures Emit(ps, labels, restDb1, restDb2, jw).1.Aborted? <==>
      exists k :: 0 <= k < |ps| && SimilarityTuple(ps[k].0, ps[k].1, restDb1, restDb2, jw) !in labels
    ensures Emit(ps, labels, restDb1, restDb2, jw).1.Aborted? ==> Emit(ps, labels, restDb1, restDb2, jw).1.key !in labels
  {
    if ps != [] {
      var init := ps[..|ps| - 1];
      EmitAborts(init, labels, restDb1, restDb2, jw);
      assert forall k :: 0 <= k < |init| ==> ps[k] == init[k];
    }
  }

  lemma {:induction false} PairsUpToGrows(i: nat, blockOnCity: bool, restDb1: seq<Record>, restDb2: seq<Record>)
    requires i < |restDb1|
    ensures PairsUpTo(i + 1, blockOnCity, restDb1, restDb2) ==
      PairsUpTo(i, blockOnCity, restDb1, restDb2) + RowPairs(i, |restDb2|, blockOnCity, restDb1, restDb2)
  {
  }

  /** The pairs scored so far are a prefix of all candidates: `rest` is what remains. */
  lemma {:induction false} ScoredPrefix(i: nat, j: nat, blockOnCity: bool, restDb1: seq<Record>, restDb2: seq<Record>)
    returns (rest: seq<(nat, nat)>)
    requires i < |restDb1| && j <= |restDb2|
    decreases |restDb2| - j
    ensures Candidates(blockOnCity, restDb1, restDb2) ==
      PairsUpTo(i, blockOnCity, restDb1, restDb2) + RowPairs(i, j, blockOnCity, restDb1, restDb2) + rest
  {
    var done := PairsUpTo(i, blockOnCity, restDb1, restDb2);
    if j < |restDb2| {
      var later := ScoredPrefix(i, j + 1, blockOnCity, restDb1, restDb2);
      RowPairsStep(i, j, blockOnCity, restDb1, restDb2, done);
      var extra: seq<(nat, nat)> := if Kept(i, j, blockOnCity, restDb1, restDb2) then [(i, j)] else [];
      assert done + RowPairs(i, j + 1, blockOnCity, restDb1, restDb2) == done + RowPairs(i, j, blockOnCity, restDb1, restDb2) + extra;
      rest := extra + later;
    } else {
      PairsUpToGrows(i, blockOnCity, restDb1, restDb2);
      rest := PrefixOfAll(i + 1, blockOnCity, restDb1, restDb2);
    }
  }

  lemma {:induction false} PrefixOfAll(i: nat, blockOnCity: bool, restDb1: seq<Record>, restDb2: seq<Record>)
    returns (rest: seq<(nat, nat)>)
    requires i <= |restDb1|
    decreases |restDb1| - i
    ensures Candidates(blockOnCity, restDb1, restDb2) == PairsUpTo(i, blockOnCity, restDb1, restDb2) + rest
  {
    if i < |restDb1| {
      var later := PrefixOfAll(i + 1, blockOnCity, restDb1, restDb2);
      PairsUpToGrows(i, blockOnCity, restDb1, restDb2);
      rest := RowPairs(i, |restDb2|, blockOnCity, restDb1, restDb2) + later;
    } else {
      rest := [];
    }
  }

  /** A run that stopped after the pairs scored so far stops the whole run the same way. */
  lemma {:induction false} AbortedPrefix(i: nat, j: nat, blockOnCity: bool, labels: map<Pattern, Label>, restDb1: seq<Record>, restDb2: seq<Record>, jw: Scorer)
    requires i < |restDb1| && j <= |restDb2|
    requires PairsInBounds(PairsUpTo(i, blockOnCity, restDb1, restDb2) + RowPairs(i, j, blockOnCity, restDb1, restDb2), restDb1, restDb2)
    requires Emit(PairsUpTo(i, blockOnCity, restDb1, restDb2) + RowPairs(i, j, blockOnCity, restDb1, restDb2), labels, restDb1, restDb2, jw).1.Aborted?
    ensures PairsInBounds(Candidates(blockOnCity, restDb1, restDb2), restDb1, restDb2)
    ensures Emit(Candidates(blockOnCity, restDb1, restDb2), labels, restDb1, restDb2, jw) ==
      Emit(PairsUpTo(i, blockOnCity, restDb1, restDb2) + RowPairs(i, j, blockOnCity, restDb1, restDb2), labels, restDb1, restDb2, jw)
  {
    CandidatesFacts(blockOnCity, restDb1, restDb2);
    var rest := ScoredPrefix(i, j, blockOnCity, restDb1, restDb2);
    var scored := PairsUpTo(i, blockOnCity, restDb1, restDb2) + RowPairs(i, j, blockOnCity, restDb1, restDb2);
    EmitAbortedStays(scored, rest, labels, restDb1, restDb2, jw);
  }

  /** One step of the inner loop of write_row, on the pairs scored before (i, j). */
  /** `rows` are what writing the pairs `ps` produces, and writing ended without KeyError. */
  predicate Completed(ps: seq<(nat, nat)>, labels: map<Pattern, Label>, restDb1: seq<Record>, restDb2: seq<Record>, jw: Scorer, rows: seq<Row>) {
    PairsInBounds(ps, restDb1, restDb2) && Emit(ps, labels, restDb1, restDb2, jw) == (rows, Done)
  }

  lemma {:induction false} LineStep(i: nat, j: nat, blockOnCity: bool, labels: map<Pattern, Label>, restDb1: seq<Record>, restDb2: seq<Record>, jw: Scorer, rows: seq<Row>)
    requires i < |restDb1| && j < |restDb2|
    requires Completed(PairsUpTo(i, blockOnCity, restDb1, restDb2) + RowPairs(i, j, blockOnCity, restDb1, restDb2), labels, restDb1, restDb2, jw, rows)
    ensures var t := SimilarityTuple(i, j, restDb1, restDb2, jw);
      var next := PairsUpTo(i, blockOnCity, restDb1, restDb2) + RowPairs(i, j + 1, blockOnCity, restDb1, restDb2);
      PairsInBounds(next, restDb1, restDb2) &&
      if !Kept(i, j, blockOnCity, restDb1, restDb2) then Completed(next, labels, restDb1, restDb2, jw, rows)
      else if t in labels then Completed(next, labels, restDb1, restDb2, jw, rows + [Row(i, j, labels[t])])
      else Emit(next, labels, restDb1, restDb2, jw) == (rows, Aborted(t))
  {
    var done := PairsUpTo(i, blockOnCity, restDb1, restDb2);
    ScoredInBounds(i, j + 1, blockOnCity, restDb1, restDb2);
    RowPairsStep(i, j, blockOnCity, restDb1, restDb2, done);
    if Kept(i, j, blockOnCity, restDb1, restDb2) {
      EmitSnoc(done + RowPairs(i, j, blockOnCity, restDb1, restDb2), (i, j), labels, restDb1, restDb2, jw);
    }
  }

  /**
   * The body of write_row's inner loop for the pair (i, j): skipped when
   * blocking on city and the city columns differ, otherwise [i, j, labels[t]]
   * for the pair's similarity tuple t, or KeyError when t is missing.
   */
  method WriteCell(labels: map<Pattern, Label>, blockOnCity: bool, i: nat, j: nat, restDb1: seq<Record>, restDb2: seq<Record>, jw: Scorer, rows0: seq<Row>)
    returns (rows: seq<Row>, status: Outcome)
    requires i < |restDb1| && j < |restDb2|
    requires Completed(PairsUpTo(i, blockOnCity, restDb1, restDb2) + RowPairs(i, j, blockOnCity, restDb1, restDb2), labels, restDb1, restDb2, jw, rows0)
    ensures PairsInBounds(PairsUpTo(i, blockOnCity, restDb1, restDb2) + RowPairs(i, j + 1, blockOnCity, restDb1, restDb2), restDb1, restDb2)
    ensures Emit(PairsUpTo(i, blockOnCity, restDb1, restDb2) + RowPairs(i, j + 1, blockOnCity, restDb1, restDb2), labels, restDb1, restDb2, jw) == (rows, status)
  {
    LineStep(i, j, blockOnCity, labels, restDb1, restDb2, jw, rows0);
    if blockOnCity {
      if restDb1[i].city != restDb2[j].city {
        return rows0, Done;
      }
    }
    var t := SimilarityTuple(i, j, restDb1, restDb2, jw);
    if t !in labels {
      return rows0, Aborted(t);
    }
    return rows0 + [Row(i, j, labels[t])], Done;
  }

  /** The inner loop of write_row for row i of the first table, stopping at the first KeyError. */
  method WriteRowLine(labels: map<Pattern, Label>, blockOnCity: bool, i: nat, restDb1: seq<Record>, restDb2: seq<Record>, jw: Scorer, rows0: seq<Row>)
    returns (rows: seq<Row>, status: Outcome)
    requires i < |restDb1|
    requires Completed(PairsUpTo(i, blockOnCity, restDb1, restDb2), labels, restDb1, restDb2, jw, rows0)
    ensures status.Done? ==> Completed(PairsUpTo(i + 1, blockOnCity, restDb1, restDb2), labels, restDb1, restDb2, jw, rows)
    ensures status.Aborted? ==>
      PairsInBounds(Candidates(blockOnCity, restDb1, restDb2), restDb1, restDb2) &&
      Emit(Candidates(blockOnCity, restDb1, restDb2), labels, restDb1, restDb2, jw) == (rows, status)
  {
    ghost var done := PairsUpTo(i, blockOnCity, restDb1, restDb2);
    assert done + RowPairs(i, 0, blockOnCity, restDb1, restDb2) == done;
    rows, status := rows0, Done;
    for j := 0 to |restDb2|
      invariant Completed(done + RowPairs(i, j, blockOnCity, restDb1, restDb2), labels, restDb1, restDb2, jw, rows)
      invariant status == Done
    {
      rows, status := WriteCell(labels, blockOnCity, i, j, restDb1, restDb2, jw, rows);
      if status.Aborted? {
        AbortedPrefix(i, j + 1, blockOnCity, labels, restDb1, restDb2, jw);
        return;
      }
    }
    PairsUpToGrows(i, blockOnCity, restDb1, restDb2);
  }

  /**
   * write_row: the rows of every candidate pair, row i of the first table by
   * row i, stopping at the first similarity tuple missing from `labels`.
   */
  method WriteRow(labels: map<Pattern, Label>, blockOnCity: bool, restDb1: seq<Record>, restDb2: seq<Record>, jw: Scorer)
    returns (rows: seq<Row>, status: Outcome)
    ensures PairsInBounds(Candidates(blockOnCity, restDb1, restDb2), restDb1, restDb2)
    ensures (rows, status) == Emit(Candidates(blockOnCity, restDb1, restDb2), labels, restDb1, restDb2, jw)
  {
    CandidatesFacts(blockOnCity, restDb1, restDb2);
    rows, status := [], Done;
    for i := 0 to |restDb1|
      invariant Completed(PairsUpTo(i, blockOnCity, restDb1, restDb2), labels, restDb1, restDb2, jw, rows)
      invariant status == Done
    {
      rows, status := WriteRowLine(labels, blockOnCity, i, restDb1, restDb2, jw, rows);
      if status.Aborted? {
        return;
      }
    }
  }

  /**
   * find_matches without its file I/O: with the dictionary generate_label_dic
   * trains and a sort that only reorders, write_row never raises KeyError and
   * writes [i, j, labels] for every kept pair, in order; without blocking,
   * |restDb1| * |restDb2| rows.
   */
  lemma {:induction false} ScoringAfterTraining(trDb1: seq<(nat, nat)>, trDb2: seq<(nat, nat)>, restDb1: seq<Record>, restDb2: seq<Record>,
                             mu: real, lambda: real, jw: Scorer, sort: Sorter, blockOnCity: bool)
    requires InBounds(trDb1, restDb1, restDb2) && InBounds(trDb2, restDb1, restDb2) && Permutes(sort)
    ensures var labels := TrainedLabels(trDb1, trDb2, restDb1, restDb2, mu, lambda, jw, sort);
      var ps := Candidates(blockOnCity, restDb1, restDb2);
      PairsInBounds(ps, restDb1, restDb2) &&
      Emit(ps, labels, restDb1, restDb2, jw).1 == Done &&
      |Emit(ps, labels, restDb1, restDb2, jw).0| == |ps| &&
      (forall k :: 0 <= k < |ps| ==>
         SimilarityTuple(ps[k].0, ps[k].1, restDb1, restDb2, jw) in labels &&
         Emit(ps, labels, restDb1, restDb2, jw).0[k] == Row(ps[k].0, ps[k].1, labels[SimilarityTuple(ps[k].0, ps[k].1, restDb1, restDb2, jw)])) &&
      (!blockOnCity ==> |Emit(ps, labels, restDb1, restDb2, jw).0| == |restDb1| * |restDb2|)
  {
    var labels := TrainedLabels(trDb1, trDb2, restDb1, restDb2, mu, lambda, jw, sort);
    var ps := Candidates(blockOnCity, restDb1, restDb2);
    var lst := AllPatterns();
    var ps1, ps2 := TrainingPatterns(trDb1, restDb1, restDb2, jw), TrainingPatterns(trDb2, restDb1, restDb2, jw);
    TrainedTablesKnown(ps1, ps2);
    ClassifyTotal(lst, FrequencyTable(lst, ps1), FrequencyTable(lst, ps2), mu, lambda, sort);
    AllPatternsComplete();
    CandidatesFacts(blockOnCity, restDb1, restDb2);
    EmitComplete(ps, labels, restDb1, restDb2, jw);
  }
}
