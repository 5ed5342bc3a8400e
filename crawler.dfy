/**
 * The word index of crawler.py: construct_corpus, which turns a course's text
 * into a set of index words, and the update of the word -> course codes map
 * that indexer_helper performs with it.
 */
module Crawler {

  /** Words never indexed. */
  const IndexIgnore: set<string> := {
    "a", "also", "an", "and", "are", "as", "at", "be",
    "but", "by", "course", "for", "from", "how", "i",
    "ii", "iii", "in", "include", "is", "not", "of",
    "on", "or", "s", "sequence", "so", "social", "students",
    "such", "that", "the", "their", "this", "through", "to",
    "topics", "units", "we", "were", "which", "will", "with",
    "yet"
  }

  /** The characters Python's str.split() with no argument separates on. */
  predicate IsSpace(c: char) {
    c == ' ' || ('\t' <= c <= '\r') || ('\U{1c}' <= c <= '\U{1f}') ||
    c == '\U{85}' || c == '\U{a0}' || c == '\U{1680}' || ('\U{2000}' <= c <= '\U{200a}') ||
    c == '\U{2028}' || c == '\U{2029}' || c == '\U{202f}' || c == '\U{205f}' || c == '\U{3000}'
  }

  /** `[a-z]` of the regular expression. */
  predicate IsLowerLetter(c: char) {
    'a' <= c <= 'z'
  }

  /** `\w` of the regular expression, on ASCII. */
  predicate IsWordChar(c: char) {
    IsLowerLetter(c) || ('A' <= c <= 'Z') || ('0' <= c <= '9') || c == '_'
  }

  predicate IsUpperLetter(c: char) {
    'A' <= c <= 'Z'
  }

  function LowerChar(c: char): char {
    if IsUpperLetter(c) then (c as int + 32) as char else c
  }

  /** str.lower(), on ASCII letters. */
  function Lower(s: string): string {
    seq(|s|, i requires 0 <= i < |s| => LowerChar(s[i]))
  }

  /** The length of the longest prefix of `s` whose characters all satisfy `keep`. */
  function Run(s: string, keep: char -> bool): (k: nat)
    ensures k <= |s|
    ensures forall i :: 0 <= i < k ==> keep(s[i])
    ensures k < |s| ==> !keep(s[k])
  {
    if s == [] || !keep(s[0]) then 0 else 1 + Run(s[1..], keep)
  }

  function NotSpace(c: char): bool {
    !IsSpace(c)
  }

  /** str.split() with no argument: the maximal runs of non-space characters, in order. */
  function Split(s: string): (toks: seq<string>)
    decreases |s|
  {
    if s == [] then []
    else if IsSpace(s[0]) then Split(s[1..])
    else
      var k := Run(s, NotSpace);
      [s[..k]] + Split(s[k..])
  }

  /** A word as indexed: a letter a-z followed by word characters. */
  predicate IsWord(w: string) {
    w != [] && IsLowerLetter(w[0]) && forall i :: 0 <= i < |w| ==> IsWordChar(w[i])
  }

  /**
   * re.findall(r"^[a-z]+\w*", tok): at most one match, present exactly when
   * the token starts with a-z, and then the longest word-character prefix.
   */
  function FindWord(tok: string): (w: seq<string>)
    ensures |w| <= 1
    ensures w != [] <==> tok != [] && IsLowerLetter(tok[0])
    ensures w != [] ==> IsWord(w[0]) && w[0] <= tok && (|w[0]| == |tok| || !IsWordChar(tok[|w[0]|]))
  {
    if tok != [] && IsLowerLetter(tok[0]) then [tok[..Run(tok, IsWordChar)]] else []
  }

  /** What one token adds to the corpus. */
  function Contribution(tok: string): set<string> {
    var w := FindWord(tok);
    if |w| > 0 && w[0] !in IndexIgnore then {w[0]} else {}
  }

  /** The words the tokens contribute, in the order construct_corpus visits them. */
  function CorpusOf(toks: seq<string>): set<string> {
    if toks == [] then {}
    else CorpusOf(toks[..|toks| - 1]) + Contribution(toks[|toks| - 1])
  }

  /** construct_corpus as a value. */
  function Corpus(s: string): set<string> {
    CorpusOf(Split(Lower(s)))
  }

  /**
   * construct_corpus: lowercases and splits the text, and for every token adds
   * the word findall finds unless there is none or it is ignored.
   */
  method ConstructCorpus(s: string) returns (rv: set<string>)
    ensures rv == Corpus(s)
  {
    rv := {};
    var wordLst := Split(Lower(s));
    for k := 0 to |wordLst|
      invariant rv == CorpusOf(wordLst[..k])
    {
      assert wordLst[..k + 1][..k] == wordLst[..k];
      var w := FindWord(wordLst[k]);
      if |w| > 0 && w[0] !in IndexIgnore {
        rv := rv + {w[0]};
      }
    }
    assert wordLst[..|wordLst|] == wordLst;
  }

  /** Every token of str.split() is non-empty and free of spaces. */
  lemma {:induction false} SplitTokens(s: string)
    decreases |s|
    ensures forall k :: 0 <= k < |Split(s)| ==>
      Split(s)[k] != [] && forall i :: 0 <= i < |Split(s)[k]| ==> !IsSpace(Split(s)[k][i])
  {
    if s != [] {
      if IsSpace(s[0]) {
        SplitTokens(s[1..]);
      } else {
        var n := Run(s, NotSpace);
        SplitTokens(s[n..]);
        assert Split(s) == [s[..n]] + Split(s[n..]);
      }
    }
  }

  /** Splitting stops at a space inside the text. */
  lemma {:induction false} RunStopsAtSpace(a: string, c: char, b: string)
    requires IsSpace(c) && a != [] && !IsSpace(a[0])
    ensures Run(a + [c] + b, NotSpace) == Run(a, NotSpace)
    decreases |a|
  {
    if |a| > 1 && !IsSpace(a[1]) {
      assert (a + [c] + b)[1..] == a[1..] + [c] + b;
      RunStopsAtSpace(a[1..], c, b);
    } else if |a| > 1 {
      assert (a + [c] + b)[1..] == a[1..] + [c] + b;
    } else {
      assert (a + [c] + b)[1..] == [c] + b;
    }
  }

  /** Text separated by a space splits into the tokens of each side. */
  lemma {:induction false} SplitJoin(a: string, c: char, b: string)
    requires IsSpace(c)
    ensures Split(a + [c] + b) == Split(a) + Split(b)
    decreases |a|
  {
    var s := a + [c] + b;
    if a == [] {
      assert s == [c] + b && s[1..] == b;
    } else if IsSpace(a[0]) {
      assert s[1..] == a[1..] + [c] + b;
      SplitJoin(a[1..], c, b);
    } else {
      var n := Run(a, NotSpace);
      SplitAtToken(a, c, b);
      SplitJoin(a[n..], c, b);
      assert Split(a) == [a[..n]] + Split(a[n..]);
    }
  }

  /** The first token of text joined at a space lies in its left part. */
  lemma {:induction false} SplitAtToken(a: string, c: char, b: string)
    requires IsSpace(c) && a != [] && !IsSpace(a[0])
    ensures Split(a + [c] + b) == [a[..Run(a, NotSpace)]] + Split(a[Run(a, NotSpace)..] + [c] + b)
  {
    var s := a + [c] + b;
    RunStopsAtSpace(a, c, b);
    var n := Run(a, NotSpace);
    assert s[..n] == a[..n];
    assert s[n..] == a[n..] + [c] + b;
  }

  /** The corpus of tokens is the union of what each of them contributes. */
  lemma {:induction false} CorpusOfMembers(toks: seq<string>, x: string)
    ensures x in CorpusOf(toks) <==> exists k :: 0 <= k < |toks| && x in Contribution(toks[k])
  {
    if toks != [] {
      var init := toks[..|toks| - 1];
      CorpusOfMembers(init, x);
      assert forall k :: 0 <= k < |init| ==> init[k] == toks[k];
      if x in Contribution(toks[|toks| - 1]) {
        assert x in CorpusOf(toks);
      }
    }
  }

  lemma {:induction false} CorpusOfConcat(a: seq<string>, b: seq<string>)
    ensures CorpusOf(a + b) == CorpusOf(a) + CorpusOf(b)
  {
    if b == [] {
      assert a + b == a;
    } else {
      var init := b[..|b| - 1];
      assert (a + b)[..|a + b| - 1] == a + init;
      CorpusOfConcat(a, init);
    }
  }

  /**
   * A word is in the corpus exactly when findall finds it at the head of some
   * token of the lowercased text and it is not ignored.
   */
  lemma {:induction false} CorpusMembers(s: string, x: string)
    ensures x in Corpus(s) <==>
      x !in IndexIgnore && exists tok :: tok in Split(Lower(s)) && FindWord(tok) == [x]
  {
    var toks := Split(Lower(s));
    CorpusOfMembers(toks, x);
    if x in Corpus(s) {
      var k :| 0 <= k < |toks| && x in Contribution(toks[k]);
      assert toks[k] in toks && FindWord(toks[k]) == [x];
    }
    if x !in IndexIgnore && exists tok :: tok in toks && FindWord(tok) == [x] {
      var tok :| tok in toks && FindWord(tok) == [x];
      var k :| 0 <= k < |toks| && toks[k] == tok;
      assert x in Contribution(toks[k]);
    }
  }

  /**
   * Every corpus word starts with a-z, consists of word characters, is not
   * ignored, and is the longest word-character prefix of a token of the
   * lowercased text.
   */
  lemma {:induction false} CorpusWordShape(s: string, x: string)
    requires x in Corpus(s)
    ensures IsWord(x) && x !in IndexIgnore
    ensures exists tok :: tok in Split(Lower(s)) && x <= tok && (|x| == |tok| || !IsWordChar(tok[|x|]))
  {
    CorpusMembers(s, x);
    var tok :| tok in Split(Lower(s)) && FindWord(tok) == [x];
  }

  /** A token that does not start with a-z contributes nothing. */
  lemma {:induction false} NonLetterTokenSilent(tok: string)
    requires tok == [] || !IsLowerLetter(tok[0])
    ensures Contribution(tok) == {}
  {
  }

  lemma {:induction false} LowerIdempotent(s: string)
    ensures Lower(Lower(s)) == Lower(s)
  {
    forall i | 0 <= i < |s|
      ensures Lower(Lower(s))[i] == Lower(s)[i]
    {
      var c := s[i];
      if IsUpperLetter(c) {
        assert !IsUpperLetter(LowerChar(c));
      }
    }
  }

  /** Lowercasing first changes nothing: construct_corpus lowercases itself. */
  lemma {:induction false} CorpusLower(s: string)
    ensures Corpus(Lower(s)) == Corpus(s)
  {
    LowerIdempotent(s);
  }

  lemma {:induction false} LowerJoin(a: string, c: char, b: string)
    requires IsSpace(c)
    ensures Lower(a + [c] + b) == Lower(a) + [c] + Lower(b)
  {
    var s, t := Lower(a + [c] + b), Lower(a) + [c] + Lower(b);
    forall i | 0 <= i < |s|
      ensures s[i] == t[i]
    {
      if i < |a| {
      } else if i == |a| {
      } else {
        assert (a + [c] + b)[i] == b[i - |a| - 1];
      }
    }
  }

  /** The corpus of two texts joined by a space is the union of their corpora. */
  lemma {:induction false} CorpusJoin(a: string, b: string)
    ensures Corpus(a + " " + b) == Corpus(a) + Corpus(b)
  {
    LowerJoin(a, ' ', b);
    SplitJoin(Lower(a), ' ', Lower(b));
    CorpusOfConcat(Split(Lower(a)), Split(Lower(b)));
  }

  /** The codes of `w` in `m`, none when it is not a key. */
  function Codes(m: map<string, set<string>>, w: string): set<string> {
    if w in m then m[w] else {}
  }

  /** The map after every word of `words` has gained `code`. */
  function WithCode(m: map<string, set<string>>, words: set<string>, code: string): map<string, set<string>> {
    map w | w in m.Keys + words :: Codes(m, w) + (if w in words then {code} else {})
  }

  /**
   * After the update every word of `words` is a key whose codes include
   * `code`, codes already present are kept, nothing but `code` is added, and
   * keys outside `words` are untouched.
   */
  lemma {:induction false} WithCodeFacts(m: map<string, set<string>>, words: set<string>, code: string, w: string)
    ensures w in WithCode(m, words, code) <==> w in m || w in words
    ensures w in words ==> code in WithCode(m, words, code)[w]
    ensures w in m ==> m[w] <= WithCode(m, words, code)[w]
    ensures w in WithCode(m, words, code) ==> WithCode(m, words, code)[w] <= Codes(m, w) + {code}
    ensures w !in words ==> Codes(WithCode(m, words, code), w) == Codes(m, w)
  {
  }

  /** No words leave the map as it was. */
  lemma {:induction false} WithCodeNone(m: map<string, set<string>>, code: string)
    ensures WithCode(m, {}, code) == m
  {
    var r := WithCode(m, {}, code);
    assert r.Keys == m.Keys;
    forall w | w in r
      ensures r[w] == m[w]
    {
    }
  }

  /** The codes of a word after the update. */
  lemma {:induction false} WithCodeAt(m: map<string, set<string>>, words: set<string>, code: string, w: string)
    ensures w in WithCode(m, words, code) <==> w in m || w in words
    ensures Codes(WithCode(m, words, code), w) == Codes(m, w) + (if w in words then {code} else {})
  {
  }

  /** One more word: its set gains `code`, created empty when missing. */
  lemma {:induction false} WithCodeStep(m: map<string, set<string>>, done: set<string>, word: string, code: string)
    ensures WithCode(m, done + {word}, code) ==
      WithCode(m, done, code)[word := Codes(WithCode(m, done, code), word) + {code}]
  {
    var l := WithCode(m, done + {word}, code);
    var r := WithCode(m, done, code)[word := Codes(WithCode(m, done, code), word) + {code}];
    assert l.Keys == r.Keys;
    forall w | w in l
      ensures l[w] == r[w]
    {
      WithCodeFacts(m, done, code, w);
    }
  }

  /** Adding codes for two word sets, one after the other, in either order gives the same map. */
  lemma {:induction false} WithCodeCommutes(m: map<string, set<string>>, a: set<string>, c1: string, b: set<string>, c2: string)
    ensures WithCode(WithCode(m, a, c1), b, c2) == WithCode(WithCode(m, b, c2), a, c1)
  {
    var ma, mb := WithCode(m, a, c1), WithCode(m, b, c2);
    var l, r := WithCode(ma, b, c2), WithCode(mb, a, c1);
    forall w
      ensures (w in l <==> w in r) && Codes(l, w) == Codes(r, w)
    {
      WithCodeAt(m, a, c1, w);
      WithCodeAt(m, b, c2, w);
      WithCodeAt(ma, b, c2, w);
      WithCodeAt(mb, a, c1, w);
    }
    assert l.Keys == r.Keys;
    assert forall w :: w in l ==> l[w] == Codes(l, w) == Codes(r, w) == r[w];
  }

  /** Adding the codes of two word sets for one code is adding those of their union. */
  lemma {:induction false} WithCodeUnion(m: map<string, set<string>>, a: set<string>, b: set<string>, code: string)
    ensures WithCode(m, a + b, code) == WithCode(WithCode(m, a, code), b, code)
  {
    var ma := WithCode(m, a, code);
    var l, r := WithCode(m, a + b, code), WithCode(ma, b, code);
    forall w
      ensures (w in l <==> w in r) && Codes(l, w) == Codes(r, w)
    {
      WithCodeAt(m, a + b, code, w);
      WithCodeAt(m, a, code, w);
      WithCodeAt(ma, b, code, w);
    }
    assert l.Keys == r.Keys;
    assert forall w :: w in l ==> l[w] == Codes(l, w) == Codes(r, w) == r[w];
  }

  /** Indexing two texts joined by a space indexes each of them. */
  lemma {:induction false} IndexJoin(m: map<string, set<string>>, a: string, b: string, code: string)
    ensures WithCode(m, Corpus(a + " " + b), code) == WithCode(WithCode(m, Corpus(a), code), Corpus(b), code)
  {
    CorpusJoin(a, b);
    WithCodeUnion(m, Corpus(a), Corpus(b), code);
  }

  /** The word -> course codes map indexer_helper fills. */
  class WordMap {
    var entries: map<string, set<string>>

    constructor ()
      ensures entries == map[]
    {
      entries := map[];
    }

    /**
     * The loop of indexer_helper over a word set: a word not yet present gets
     * an empty set first, and then every word's set gains `code`. The set is
     * visited in an unspecified order.
     */
    method AddCodes(wordSet: set<string>, code: string)
      modifies this
      ensures entries == WithCode(old(entries), wordSet, code)
    {
      ghost var start := entries;
      var rest := wordSet;
      WithCodeNone(start, code);
      assert wordSet - rest == {};
      while rest != {}
        invariant rest <= wordSet
        invariant entries == WithCode(start, wordSet - rest, code)
        decreases rest
      {
        var word :| word in rest;
        ghost var before := entries;
        if word !in entries {
          entries := entries[word := {}];
        }
        entries := entries[word := entries[word] + {code}];
        assert entries == before[word := Codes(before, word) + {code}];
        WithCodeStep(start, wordSet - rest, word, code);
        assert (wordSet - rest) + {word} == wordSet - (rest - {word});
        rest := rest - {word};
      }
      assert wordSet - rest == wordSet;
    }

    /** indexer_helper from the joined text on: the corpus of `words`, each mapped to `code`. */
    method IndexWords(words: string, code: string)
      modifies this
      ensures entries == WithCode(old(entries), Corpus(words), code)
    {
      var wordSet := ConstructCorpus(words);
      AddCodes(wordSet, code);
    }
  }
}
