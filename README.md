# Record linkage and course indexing, modelled in Dafny

This project models two Python programs.

`record_linkage.py` links restaurant records across two tables with a
Fellegi–Sunter style classifier:

- `similarity_tuple` turns a pair of records into a pattern of three
  similarity categories (name, city, address).
- `gen_all_sim_tp` enumerates the 27 possible patterns.
- `compute_sim_tp_prop` estimates how often each pattern occurs in a
  training set of known matches or known non-matches.
- `label_sim_tp` and its helper `label_match_unmatch` do the labelling:
  - patterns with no evidence become "possible match";
  - the rest are sorted;
  - a greedy prefix becomes "match" while the false-positive mass stays
    within `mu`;
  - from the other end, a greedy prefix becomes "unmatch" while the
    false-negative mass stays within `lambda`;
  - what is left becomes "possible match".
- `generate_label_dic` composes these steps.
- `write_row` labels every candidate pair of the two tables. With blocking on,
  it only labels pairs from the same city.

`crawler.py` builds a word index of course descriptions:

- `construct_corpus` lowercases a text and splits it on whitespace.
- It keeps the leading `[a-z]+\w*` word of each token, unless the word is in
  `INDEX_IGNORE`.
- `indexer_helper` adds the course code to the set of every word of the joined
  title and description.

Modules, in dependency order:

- `SeqFacts`: generic sequence facts (distinctness, reversal, sums over
  keys, permutations).
- `Patterns`: categories, records, `SimilarityTuple`, and `GenAllSimTp` with
  its row-major layout.
- `Estimator`: `ComputeSimTpProp`, proved equal to the reference table
  count / n.
- `Classifier`: `LabelMatchUnmatch` and `LabelSimTp`, proved against the
  reference function `Classify`.
- `ClassifierProperties`: what `Classify` guarantees.
  - It labels every pattern.
  - Each pattern falls into exactly one region.
  - The error budgets hold.
  - The labels are monotone in the budgets.
- `Linkage`: `GenerateLabelDic` and `WriteRow`. `WriteRow` is proved equal to
  `Emit` over the candidate pairs in loop order.
- `Crawler`: `ConstructCorpus`, the reference `Corpus`, and the `WordMap`
  class whose `AddCodes` method is the word-map update.

Probabilities are exact reals. A dictionary lookup that Python would answer
with `KeyError` is the `KeyError` case of a `Result` (in `Linkage`, the
`Aborted` outcome). The Jaro–Winkler scorer with its categoriser is a
parameter `jw`, and the probability sort is a parameter `sort`. Lemmas that
need the sort to only reorder its input require `Permutes(sort)`.

## Model

| member | source | states |
|---|---|---|
| Patterns.SimilarityTupleSymmetric | record_linkage.py:61-68 | with a symmetric scorer, swapping the two records and tables gives the same pattern |
| Patterns.SameCitySameCategory | record_linkage.py:65-68 | with a scorer for which identical strings are "high", two records with the same city have a "high" city category |
| Patterns.GenAllSimTpLength | record_linkage.py:105 | the comprehension yields exactly n·n·n tuples |
| Patterns.PositionIsRowMajor | record_linkage.py:105 | the position of (i, j, k) is (i·n + j)·n + k, and the last position is below n³ |
| Patterns.GenAllSimTpAt | record_linkage.py:105 | the tuple at row-major position (a, b, c) is (lst[a], lst[b], lst[c]): i is the outer loop, k the inner |
| Patterns.CubeMembers | record_linkage.py:105 | a triple is produced iff each of its components is in the respective list |
| Patterns.CubeDistinct | record_linkage.py:105 | distinct input lists give a repetition-free product |
| Patterns.GenAllSimTpExactlyOnce | record_linkage.py:105 | over a list without repeats, a triple is produced iff all three components are in the list, and then exactly once |
| Patterns.CategoryListed | record_linkage.py:195 | every category is one of "high", "medium", "low" |
| Patterns.AllPatternsComplete | record_linkage.py:195 | gen_all_sim_tp over the three categories lists all 27 patterns, each once |
| Estimator.TrainingPatterns | record_linkage.py:87-89 | one pattern per training pair, in table order |
| Estimator.ShareStep | record_linkage.py:90 | the update (d·n + 1)/n turns count/n into (count+1)/n |
| Estimator.ShareBounds | record_linkage.py:90 | count/n lies in [0, 1], is 0 iff the count (or n) is 0, and n/n is 1 |
| Estimator.ComputeSimTpProp | record_linkage.py:84-92 | Ok iff every training pattern is a key of `lst`; then the result maps each key to its occurrence count / n. Otherwise KeyError names the first training pattern that is not a key |
| Estimator.PrefixTableKeys | record_linkage.py:85 | the dictionary keeps exactly the keys of `lst` during the loop |
| Estimator.PrefixTableStep | record_linkage.py:90 | one loop step moves only the entry of the current pattern, by the recurrence |
| Estimator.FrequencyKeys | record_linkage.py:85 | the table's keys are exactly the patterns of `lst` |
| Estimator.FrequencyBounds | record_linkage.py:84-92 | every frequency lies in [0, 1] |
| Estimator.FrequencyUnseen | record_linkage.py:85-90 | an entry is 0 iff its pattern never occurs, and every entry is 0 for an empty training set |
| Estimator.FrequencyUniform | record_linkage.py:84-92 | when every training pair produces q, q gets 1 and every other pattern 0 |
| Estimator.PartialSum | record_linkage.py:87-90 | after k steps the entries sum to k/n |
| Estimator.FrequenciesSumToOne | record_linkage.py:84-92 | over distinct keys covering every training pattern, the frequencies sum to 1 |
| Classifier.LabelTextInjective | record_linkage.py:128-175 | the three label strings are pairwise different |
| Classifier.Fit | record_linkage.py:125-133 | the number of tuples labelled is at most the list length |
| Classifier.FitWithinBudget | record_linkage.py:125-133 | the labelled prefix keeps every running sum within the rate, and the sum after one more tuple, if there is one, exceeds it |
| Classifier.FitUnique | record_linkage.py:125-133 | that condition determines the count uniquely |
| Classifier.LongestPrefix | record_linkage.py:125-133 | with non-negative weights, a prefix of length j ≥ 1 is within the rate iff j is at most the count |
| Classifier.FitMonotone | record_linkage.py:125-133 | a larger rate never labels fewer tuples |
| Classifier.MassConcat | record_linkage.py:128 | the accumulated mass of a concatenation is the sum of the masses |
| Classifier.RelabelStep | record_linkage.py:130 | labelling one more tuple overwrites just its pattern's entry |
| Classifier.LabelMatchUnmatch | record_linkage.py:125-136 | returns the suffix after the greedy prefix, and the dictionary with exactly that prefix's patterns set to the label |
| Classifier.ZeroLabelsStep | record_linkage.py:159-162 | one more pattern in the first loop maps it to "possible match" when it has no evidence, and otherwise leaves the map unchanged |
| Classifier.SplitByEvidence | record_linkage.py:156-164 | Ok iff every pattern is a key of both tables. Then splits into the "possible match" map of zero-evidence patterns and the list of the others, in order. KeyError names a missing pattern, and every earlier one is present |
| Classifier.MarkPossibleMatch | record_linkage.py:173-175 | every leftover pattern is labelled "possible match" |
| Classifier.LabelSimTp | record_linkage.py:156-177 | Ok iff every pattern is a key of both tables; then the result is `Classify`. KeyError names a missing pattern, and every earlier one is present |
| ClassifierProperties.InformativeFacts | record_linkage.py:159-164 | the kept entries carry the tables' values and hold exactly the patterns with evidence |
| ClassifierProperties.SortedFacts | record_linkage.py:167 | a reordering sort keeps exactly those entries |
| ClassifierProperties.Parts | record_linkage.py:166-175 | the sorted list is the "match" prefix followed by a rest. The reversed rest is the "unmatch" prefix followed by the undecided tail |
| ClassifierProperties.PartsCover | record_linkage.py:166-175 | the three regions together are the sorted patterns |
| ClassifierProperties.PartsMembers | record_linkage.py:166-175 | the regions hold exactly the patterns with evidence |
| ClassifierProperties.PartsDisjoint | record_linkage.py:166-175 | the regions do not overlap |
| ClassifierProperties.ClassifyTotal | record_linkage.py:156-177 | the label dictionary has exactly the listed patterns as keys |
| ClassifierProperties.ClassifyNoEvidence | record_linkage.py:161-162 | a pattern with m = u = 0 is "possible match" whatever the later passes do |
| ClassifierProperties.ClassifyRegions | record_linkage.py:159-175 | a pattern is "match" iff it is in the match prefix, and "unmatch" iff it is in the unmatch prefix. It is "possible match" iff it has no evidence or is undecided |
| ClassifierProperties.SumOverPatSeq | record_linkage.py:128 | the mass accumulated over entries is the sum of the relevant table over their patterns |
| ClassifierProperties.PrefixWithinBudget | record_linkage.py:129 | the labelled prefix has mass within a non-negative rate |
| ClassifierProperties.MatchBudget | record_linkage.py:166-169 | the u-probabilities of all patterns labelled "match" sum to at most `mu` (false-positive bound) |
| ClassifierProperties.UnmatchBudget | record_linkage.py:170-172 | the m-probabilities of all patterns labelled "unmatch" sum to at most `lambda` (false-negative bound) |
| ClassifierProperties.MatchMonotone | record_linkage.py:168-169 | a pattern labelled "match" stays "match" under a larger `mu` |
| ClassifierProperties.UnmatchMonotone | record_linkage.py:171-172 | a pattern labelled "unmatch" stays "unmatch" under a larger `lambda` |
| Linkage.TrainedTablesKnown | record_linkage.py:195-197 | both estimated tables have every pattern as a key |
| Linkage.GenerateLabelDic | record_linkage.py:195-199 | never raises KeyError and returns `Classify` of the two frequency tables. With a reordering sort, every one of the 27 patterns has a label |
| Linkage.RowPairsMembers | record_linkage.py:231-234 | one inner-loop pass scores exactly the kept pairs of its row, below the current column |
| Linkage.RowPairsCount | record_linkage.py:231 | without blocking an inner pass scores every column |
| Linkage.PairsMembers | record_linkage.py:230-234 | the outer loop scores exactly the kept pairs of the rows so far |
| Linkage.PairsAscending | record_linkage.py:230-231 | pairs are scored in (i, j) lexicographic order |
| Linkage.PairsCount | record_linkage.py:230-231 | without blocking, i rows give i·|rest_db2| pairs |
| Linkage.CandidatesFacts | record_linkage.py:230-234 | the scored pairs are in range, in loop order, and exactly the kept pairs. Without blocking there are |rest_db1|·|rest_db2| of them |
| Linkage.EmitComplete | record_linkage.py:235-236 | when every pattern is labelled, writing completes, with row k = [i, j, label] of the k-th pair |
| Linkage.EmitAborts | record_linkage.py:235-236 | writing stops exactly when some scored pattern is missing from the labels, and names a missing pattern |
| Linkage.EmitAbortedStays | record_linkage.py:236 | after a KeyError no further rows are written |
| Linkage.WriteCell | record_linkage.py:232-236 | one inner-loop step extends the emitted rows by the current pair or skips a blocked pair |
| Linkage.WriteRowLine | record_linkage.py:231-236 | one outer-loop step writes the rows of its line, or stops with the rows of the whole run at a KeyError |
| Linkage.WriteRow | record_linkage.py:230-236 | the rows written, and whether a KeyError stopped it, are `Emit` over all candidate pairs in loop order |
| Linkage.ScoringAfterTraining | record_linkage.py:36-41 | after training, write_row never raises KeyError and writes one row per candidate pair, |db1|·|db2| rows without blocking |
| Crawler.Run | crawler.py:38 | the length of the longest prefix satisfying a predicate |
| Crawler.SplitTokens | crawler.py:38 | every token of str.split() is non-empty and has no whitespace |
| Crawler.SplitJoin | crawler.py:38 | splitting text joined at a whitespace character gives the tokens of both sides |
| Crawler.LowerIdempotent | crawler.py:38 | lowercasing twice is lowercasing once |
| Crawler.FindWord | crawler.py:41 | at most one match; there is one iff the token starts with a–z, and it is the longest `[a-z]\w*` prefix |
| Crawler.NonLetterTokenSilent | crawler.py:41-42 | a token not starting with a–z adds nothing |
| Crawler.CorpusOfMembers | crawler.py:40-43 | the corpus of tokens is the union of what each token contributes |
| Crawler.ConstructCorpus | crawler.py:37-45 | the loop builds exactly `Corpus` |
| Crawler.CorpusMembers | crawler.py:37-45 | a word is in the corpus iff it is not ignored and some token's match is that word |
| Crawler.CorpusWordShape | crawler.py:17-45 | every corpus word matches `[a-z]\w*`, is not in INDEX_IGNORE, and is a maximal prefix of a lowercased token |
| Crawler.CorpusLower | crawler.py:38 | lowercasing the text first does not change the corpus |
| Crawler.CorpusJoin | crawler.py:61-64 | the corpus of two texts joined with " " is the union of their corpora |
| Crawler.WithCodeFacts | crawler.py:67-70 | after the update, the keys are the old keys plus the words, and every word's set holds the code. Old codes are kept, nothing but the code is added, and other words are untouched |
| Crawler.WithCodeAt | crawler.py:67-70 | each word's codes afterwards are its old codes plus the code exactly when it is in the word set |
| Crawler.WithCodeStep | crawler.py:68-70 | one iteration adds the code to one word's set, creating the set when missing |
| Crawler.WithCodeCommutes | crawler.py:66-70 | indexing two courses in either order gives the same map |
| Crawler.WithCodeUnion | crawler.py:66-70 | indexing two word sets with one code is indexing their union |
| Crawler.IndexJoin | crawler.py:61-70 | indexing the joined title and description indexes each part |
| Crawler.WordMap.AddCodes | crawler.py:67-70 | the map becomes the old map updated by `WithCode`, whatever order the set is visited in |
| Crawler.WordMap.IndexWords | crawler.py:66-70 | the map gains the code for exactly the corpus of the text |

## Where the design and the code differ

- The design describes an empty training set as an error. `compute_sim_tp_prop`
  never divides when n = 0: the loop does not run, and the table of zeros is
  returned. The model follows the code. `Share` is 0 for n = 0, and
  `Estimator.FrequencyUnseen` states the all-zero table.
- The design describes the label map as total over the 27 patterns. The code
  makes it total under one condition: the sort must only reorder its input.
  The model proves totality under `Permutes(sort)` (`ClassifierProperties.ClassifyTotal`,
  `Linkage.GenerateLabelDic`).

## Left out

- find_matches, import_database: reading the CSV files, opening the output
  file and the IOError paths are I/O. `Linkage.WriteRow` returns the rows as a list
  instead of writing them. `Linkage.ScoringAfterTraining` states find_matches apart from I/O.
- jellyfish.jaro_winkler_similarity and util.get_jw_category are not part of
  this model. Their composite is the parameter `jw`.
- util.sort_prob_tuples is not part of this model. It is the parameter `sort`,
  and the lemmas that need it to only reorder require `Permutes(sort)`.
- Floating point: probabilities and sums are exact reals. Rounding of
  (d·n + 1)/n and of the running sums is not modelled.
- pandas row access: negative indices and IndexError for indices out of
  range are not modelled. Indices are `nat` with the bound as a precondition
  (`InBounds`, `PairsInBounds`).
- Python dictionaries are passed and returned as values. The sharing of `rv`
  between label_sim_tp and label_match_unmatch is not modelled, which is
  harmless because the caller rebinds it to the returned dictionary.
- Classifier.LabelSimTp and Linkage.WriteRow: their bodies are split into
  helper methods (SplitByEvidence, MarkPossibleMatch, WriteRowLine, WriteCell)
  to keep each proof small. The behaviour is the same.
- ClassifierProperties.MatchBudget and ClassifierProperties.UnmatchBudget
  require a non-negative bound. With a negative bound nothing is labelled
  and the sum over an empty set is 0, which exceeds the bound.
- Crawler.Lower: str.lower() is modelled on ASCII letters only. Other
  Unicode case mappings are not modelled.
- Crawler.FindWord: `\w` is ASCII `[A-Za-z0-9_]`. Python's Unicode word
  characters beyond ASCII are not modelled.
- Crawler.Split: the whitespace set of str.split() is modelled character by
  character. Its definition has no ensures of its own, and SplitTokens and
  SplitJoin state its properties.
- Crawler.WordMap.AddCodes: the iteration order of a Python set is
  unspecified and is modelled by an arbitrary choice. `WithCodeCommutes`
  shows that the result does not depend on order.
- crawler.py go, queue_url, indexer, load_json, write_index_csv,
  and the HTML parsing in indexer_helper (finding the title and description, and
  extracting the code) are network, HTML and file work. They are outside this
  model. util is not part of this model.
