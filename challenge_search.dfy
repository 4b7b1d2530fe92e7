/** `searchSimilarChallenges` of app.js: the stored challenges in the same language whose question
    shares at least two of the asker's longer words. */
module ChallengeSearch {
  import opened Seqs
  import opened Strings
  import opened Records

  /** The smallest number of keyword hits that makes a challenge similar. */
  const MinMatches: nat := 2

  predicate IsKeyword(w: string) {
    |w| > 3
  }

  /** The query's keywords: its lowercased space-separated words longer than three characters, in
      order and with repeats. */
  function Keywords(question: string): (ks: seq<string>)
    ensures var words := Split(ToLower(question), ' ');
      && SubsequenceOf(ks, words)
      && (forall i :: 0 <= i < |ks| ==> |ks[i]| > 3)
      && (forall i :: 0 <= i < |words| && |words[i]| > 3 ==> words[i] in ks)
  {
    var words := Split(ToLower(question), ' ');
    FilterSubsequence(IsKeyword, words);
    Filter(IsKeyword, words)
  }

  /** Repeats are kept: a long word occurs among the keywords as often as the query has it, a short
      one not at all. */
  lemma KeywordRepeats(question: string, w: string)
    ensures multiset(Keywords(question))[w] == if |w| > 3 then multiset(Split(ToLower(question), ' '))[w] else 0
  {
    FilterCount(IsKeyword, Split(ToLower(question), ' '), w);
  }

  /** How many keywords (counting repeats) occur in `text`. */
  function MatchCount(keywords: seq<string>, text: string): (n: nat)
    ensures n <= |keywords|
  {
    |Filter((k: string) => Contains(text, k), keywords)|
  }

  /** Hits add up over a split keyword list. */
  lemma MatchCountAppend(a: seq<string>, b: seq<string>, text: string)
    ensures MatchCount(a + b, text) == MatchCount(a, text) + MatchCount(b, text)
  {
    FilterAppend((k: string) => Contains(text, k), a, b);
  }

  /** A stored challenge is similar: its lowercased language contains the lowercased query language
      and its lowercased question contains at least two keywords. */
  predicate IsSimilar(question: string, language: string, ch: Challenge) {
    Contains(ToLower(ch.language), ToLower(language)) && MatchCount(Keywords(question), ToLower(ch.question)) >= MinMatches
  }

  /** The similar stored challenges, in store order. */
  function SearchSimilarChallenges(question: string, language: string, store: seq<Challenge>): (similar: seq<Challenge>)
    ensures SubsequenceOf(similar, store)
    ensures forall i :: 0 <= i < |similar| ==> similar[i] in store && IsSimilar(question, language, similar[i])
    ensures forall i :: 0 <= i < |store| && IsSimilar(question, language, store[i]) ==> store[i] in similar
  {
    FilterSubsequence((ch: Challenge) => IsSimilar(question, language, ch), store);
    Filter((ch: Challenge) => IsSimilar(question, language, ch), store)
  }

  predicate NoUpper(s: string) {
    forall i :: 0 <= i < |s| ==> !('A' <= s[i] <= 'Z')
  }

  lemma LowerIdentity(s: string)
    requires NoUpper(s)
    ensures ToLower(s) == s
  {
  }

  /** Repeats count: a query that is one keyword typed twice matches, in its language, every challenge
      whose question contains that word. */
  lemma RepeatedKeywordMatches(w: string, language: string, ch: Challenge)
    requires |w| > 3 && NoUpper(w) && ' ' !in w
    requires Contains(ToLower(ch.language), ToLower(language)) && Contains(ToLower(ch.question), w)
    ensures IsSimilar(w + " " + w, language, ch)
  {
    var q := w + " " + w;
    assert NoUpper(q) by {
      forall i | 0 <= i < |q| ensures !('A' <= q[i] <= 'Z') {
        if i < |w| { assert q[i] == w[i]; } else if i > |w| { assert q[i] == w[i - |w| - 1]; }
      }
    }
    LowerIdentity(q);
    SplitTwo(w, w, ' ');
    assert Split(ToLower(q), ' ') == [w, w];
    assert Keywords(q) == [w, w] by {
      FilterKeepsAll(IsKeyword, [w, w]);
    }
    MatchCountAppend([w], [w], ToLower(ch.question));
    assert [w] + [w] == [w, w];
  }
}
