/** The background worker (background.js): the fallback analysers it answers with, the suggestion
    rule, and the read-modify-write of the stored writing statistics. Storage is not modelled:
    the stored record is passed in and the record to store is returned. Confidences are in
    hundredths and sentiment scores in tenths. */
module Background {
  import opened Text
  import opened Analysis

  // ---------------------------------------------------------------- analyzeGrammar

  const SpacingMessage := "Multiple spaces detected"
  const PunctuationMessage := "Missing end punctuation"

  /** Spacing at the first double space, then punctuation at the last index of a text longer
      than ten characters whose trimmed form does not end a sentence. */
  method AnalyzeGrammar(text: string) returns (issues: seq<Issue>)
    ensures |issues| <= 2
    ensures Kinds(issues)
      == (if Contains(text, "  ") then [Spacing] else [])
       + (if |text| > 10 && !EndsWithTerminator(Trim(text)) then [Punctuation] else [])
    ensures forall i :: 0 <= i < |issues| ==> issues[i].suggestion.None? && issues[i].position.Some?
    ensures forall i :: 0 <= i < |issues| && issues[i].kind == Spacing ==>
      issues[i].message == SpacingMessage && IsFirstOccurrence(text, "  ", issues[i].position.value)
    ensures forall i :: 0 <= i < |issues| && issues[i].kind == Punctuation ==>
      issues[i].message == PunctuationMessage && issues[i].position.value == |text| - 1
  {
    issues := [];
    if Contains(text, "  ") {
      issues := issues + [Issue(Spacing, SpacingMessage, None, Some(IndexOf(text, "  ")))];
    }
    if |text| > 10 && !EndsWithTerminator(Trim(text)) {
      issues := issues + [Issue(Punctuation, PunctuationMessage, None, Some(|text| - 1))];
    }
  }

  // ---------------------------------------------------------------- analyzeTone

  datatype ToneResult = ToneResult(primary: Tone, confidence: nat, alternatives: seq<string>)

  const Alternatives: seq<string> := ["neutral", "professional"]

  /** Formal for long words and no `!`, otherwise casual for any `!` or words shorter than four
      characters on average, otherwise neutral; the confidence and the alternatives are fixed. */
  function AnalyzeTone(text: string): (r: ToneResult)
    ensures r.primary == Formal <==> AvgWordLength(text) > 6.0 && !Contains(text, "!")
    ensures r.primary == Casual <==>
      !(AvgWordLength(text) > 6.0 && !Contains(text, "!"))
      && (Contains(text, "!") || AvgWordLength(text) < 4.0)
    ensures r.confidence == 75 && r.alternatives == Alternatives
  {
    var words := |SplitWs(text)|;
    var letters := NonWsCount(text);
    var bang := Contains(text, "!");
    RatioCompare(letters, words, 6);
    RatioCompare(letters, words, 4);
    var tone := if letters > 6 * words && !bang then Formal
      else if bang || letters < 4 * words then Casual
      else Neutral;
    ToneResult(tone, 75, Alternatives)
  }

  // ---------------------------------------------------------------- analyzeSentiment

  datatype SentimentResult = SentimentResult(sentiment: Mood, score: nat)

  const PositiveWords: seq<string> := ["good", "great", "excellent", "happy", "wonderful", "amazing"]
  const NegativeWords: seq<string> := ["bad", "terrible", "awful", "sad", "horrible", "poor"]

  /** `words.filter(w => list.includes(w)).length`: the tokens equal to a list word. */
  function CountListed(words: seq<string>, list: seq<string>): nat {
    if |words| == 0 then 0
    else CountListed(words[..|words| - 1], list) + (if words[|words| - 1] in list then 1 else 0)
  }

  /** The occurrences of the list words among the tokens, added up word by word. */
  function SumOccurrences(words: seq<string>, list: seq<string>): nat {
    if |list| == 0 then 0
    else SumOccurrences(words, list[..|list| - 1]) + Occurrences(words, list[|list| - 1])
  }

  /** Number of entries of `list` equal to `w`. */
  function Hits(list: seq<string>, w: string): nat {
    if |list| == 0 then 0
    else Hits(list[..|list| - 1], w) + (if list[|list| - 1] == w then 1 else 0)
  }

  lemma {:induction false} HitsDistinct(list: seq<string>, w: string)
    requires Distinct(list)
    ensures Hits(list, w) == if w in list then 1 else 0
    decreases |list|
  {
    if |list| > 0 {
      var n := |list| - 1;
      assert list == list[..n] + [list[n]];
      assert Distinct(list[..n]);
      HitsDistinct(list[..n], w);
      if list[n] == w {
        assert w !in list[..n];
      }
    }
  }

  lemma {:induction false} SumOccurrencesStep(words: seq<string>, w: string, list: seq<string>)
    ensures SumOccurrences(words + [w], list) == SumOccurrences(words, list) + Hits(list, w)
    decreases |list|
  {
    if |list| > 0 {
      SumOccurrencesStep(words, w, list[..|list| - 1]);
      assert (words + [w])[..|words|] == words;
    }
  }

  /** Each token equal to a list word counts once per occurrence: for a list without
      duplicates the count is the sum of the list words' occurrences. */
  lemma {:induction false} CountListedSum(words: seq<string>, list: seq<string>)
    requires Distinct(list)
    ensures CountListed(words, list) == SumOccurrences(words, list)
    decreases |words|
  {
    if |words| > 0 {
      var n := |words| - 1;
      assert words == words[..n] + [words[n]];
      CountListedSum(words[..n], list);
      SumOccurrencesStep(words[..n], words[n], list);
      assert SumOccurrences(words, list) == SumOccurrences(words[..n] + [words[n]], list);
      HitsDistinct(list, words[n]);
      assert CountListed(words, list) == CountListed(words[..n], list) + (if words[n] in list then 1 else 0);
    } else {
      SumOccurrencesNone(words, list);
    }
  }

  lemma {:induction false} SumOccurrencesNone(words: seq<string>, list: seq<string>)
    requires |words| == 0
    ensures SumOccurrences(words, list) == 0
    decreases |list|
  {
    if |list| > 0 {
      SumOccurrencesNone(words, list[..|list| - 1]);
    }
  }

  lemma ListsDistinct()
    ensures Distinct(PositiveWords) && Distinct(NegativeWords)
  {
  }

  /** Exact lower-cased tokens are counted, each occurrence once; the strict comparison of the
      two counts gives the label, with score 0.7, 0.3 or 0.5. */
  function AnalyzeSentiment(text: string): (r: SentimentResult)
    ensures var words := SplitWs(Lower(text));
      var pos := SumOccurrences(words, PositiveWords);
      var neg := SumOccurrences(words, NegativeWords);
      && (r.sentiment == Positive <==> pos > neg)
      && (r.sentiment == Negative <==> neg > pos)
    ensures r.score == (match r.sentiment case Positive => 7 case Negative => 3 case Balanced => 5)
  {
    var words := SplitWs(Lower(text));
    ListsDistinct();
    CountListedSum(words, PositiveWords);
    CountListedSum(words, NegativeWords);
    var pos := CountListed(words, PositiveWords);
    var neg := CountListed(words, NegativeWords);
    if pos > neg then SentimentResult(Positive, 7)
    else if neg > pos then SentimentResult(Negative, 3)
    else SentimentResult(Balanced, 5)
  }

  /** A token with punctuation attached is not a list word: "good." counts nothing. */
  lemma AttachedPunctuationIgnored()
    ensures AnalyzeSentiment("good.").sentiment == Balanced
  {
    var t := "good.";
    assert NoDelim(Whitespace, t);
    SplitRunsNoDelim(t, Whitespace);
    assert Lower(t) == t;
    assert SplitWs(Lower(t)) == [t];
    assert t !in PositiveWords && t !in NegativeWords;
    assert [t][..0] == [];
  }

  // ---------------------------------------------------------------- generateSuggestions

  datatype Suggestion = Suggestion(kind: string, message: string, priority: string)

  const Clarity := Suggestion("clarity", "Consider breaking long sentences for better readability", "medium")

  /** The clarity suggestion exactly when the sentences average more than 25 whitespace fields;
      with no sentence the average is NaN and nothing is suggested. */
  function GenerateSuggestions(text: string): (r: seq<Suggestion>)
    ensures var ss := SplitSentences(text);
      && (r == [Clarity] <==> |ss| > 0 && TokenTotal(ss) as real / |ss| as real > 25.0)
      && (r == [] <==> !(|ss| > 0 && TokenTotal(ss) as real / |ss| as real > 25.0))
  {
    var ss := SplitSentences(text);
    if |ss| > 0 then
      RatioCompare(TokenTotal(ss), |ss|, 25);
      if TokenTotal(ss) > 25 * |ss| then [Clarity] else []
    else []
  }

  // ---------------------------------------------------------------- updateWritingStats

  /** The `newStats` message: a word count and a tone, each possibly absent. */
  datatype StatsDelta = StatsDelta(wordCount: Option<int>, tone: Option<string>)

  /** `newStats.wordCount || 0`. */
  function WordsOf(d: StatsDelta): int {
    match d.wordCount
    case None => 0
    case Some(n) => n
  }

  /** `if (newStats.tone)`: a tone is given and is not the empty string. */
  predicate HasTone(d: StatsDelta) {
    d.tone.Some? && |d.tone.value| > 0
  }

  /** `data.writingStats || {...}`: the stored record, or all zeros when there is none. */
  function Current(stored: Option<WritingStats>): (r: WritingStats)
    ensures stored.None? ==> r == EmptyStats()
    ensures stored.None? ==> r.totalWords == 0 && r.sessionsCount == 0 && r.toneDistribution.Keys == {"formal", "casual", "neutral"}
    ensures stored.Some? ==> r == stored.value
  {
    match stored
    case None => EmptyStats()
    case Some(s) => s
  }

  /** One update of the record, as a value. */
  function Step(s: WritingStats, d: StatsDelta): WritingStats {
    var dist := s.toneDistribution;
    WritingStats(
      s.totalWords + WordsOf(d),
      s.sessionsCount + 1,
      s.avgSentenceLength,
      if HasTone(d) then dist[d.tone.value := (if d.tone.value in dist then dist[d.tone.value] else 0) + 1] else dist)
  }

  /** The record the worker keeps in storage, updated field by field. */
  class StatsRecord {
    var totalWords: int
    var sessionsCount: int
    var avgSentenceLength: int
    var toneDistribution: map<string, int>

    function Value(): WritingStats
      reads this
    {
      WritingStats(totalWords, sessionsCount, avgSentenceLength, toneDistribution)
    }

    /** The record read from storage, defaulted when missing. */
    constructor (stored: Option<WritingStats>)
      ensures Value() == Current(stored)
    {
      var s := Current(stored);
      totalWords := s.totalWords;
      sessionsCount := s.sessionsCount;
      avgSentenceLength := s.avgSentenceLength;
      toneDistribution := s.toneDistribution;
    }

    /** Adds the word count, counts one more session, and counts the tone when one is given. */
    method Update(newStats: StatsDelta)
      modifies this
      ensures Value() == Step(old(Value()), newStats)
    {
      totalWords := totalWords + WordsOf(newStats);
      sessionsCount := sessionsCount + 1;
      if HasTone(newStats) {
        var tone := newStats.tone.value;
        toneDistribution := toneDistribution[tone := (if tone in toneDistribution then toneDistribution[tone] else 0) + 1];
      }
    }
  }

  /** Reads the stored record (or the default), updates it and returns the record to store. */
  method UpdateWritingStats(stored: Option<WritingStats>, newStats: StatsDelta) returns (written: WritingStats)
    ensures written == Step(Current(stored), newStats)
  {
    var current := new StatsRecord(stored);
    current.Update(newStats);
    written := current.Value();
  }

  /** One update adds the word count (0 when absent) and one session; with a tone, only that
      tone's entry changes, by one or from nothing to one; without, the distribution is kept.
      The average sentence length is never touched. */
  lemma StepEffect(s: WritingStats, d: StatsDelta)
    ensures var r := Step(s, d);
      && r.totalWords == s.totalWords + WordsOf(d)
      && r.sessionsCount == s.sessionsCount + 1
      && r.avgSentenceLength == s.avgSentenceLength
      && (!HasTone(d) ==> r.toneDistribution == s.toneDistribution)
      && (HasTone(d) ==>
        var t := d.tone.value;
        && r.toneDistribution.Keys == s.toneDistribution.Keys + {t}
        && r.toneDistribution[t] == (if t in s.toneDistribution then s.toneDistribution[t] + 1 else 1)
        && forall u :: u in s.toneDistribution && u != t ==> r.toneDistribution[u] == s.toneDistribution[u])
  {
  }

  /** Two updates give the same record in either order. */
  lemma StepCommutes(s: WritingStats, a: StatsDelta, b: StatsDelta)
    ensures Step(Step(s, a), b) == Step(Step(s, b), a)
  {
    var x := Step(Step(s, a), b);
    var y := Step(Step(s, b), a);
    if HasTone(a) && HasTone(b) && a.tone.value != b.tone.value {
      assert x.toneDistribution == y.toneDistribution;
    }
  }

  /** A sequence of updates, first to last. */
  function Fold(s: WritingStats, ds: seq<StatsDelta>): WritingStats
    decreases |ds|
  {
    if |ds| == 0 then s else Fold(Step(s, ds[0]), ds[1..])
  }

  function SumWords(ds: seq<StatsDelta>): int {
    if |ds| == 0 then 0 else WordsOf(ds[0]) + SumWords(ds[1..])
  }

  /** After any sequence of updates the total is the initial one plus the word counts, and the
      session count the initial one plus the number of updates. */
  lemma {:induction false} FoldTotals(s: WritingStats, ds: seq<StatsDelta>)
    ensures Fold(s, ds).totalWords == s.totalWords + SumWords(ds)
    ensures Fold(s, ds).sessionsCount == s.sessionsCount + |ds|
    ensures Fold(s, ds).avgSentenceLength == s.avgSentenceLength
    decreases |ds|
  {
    if |ds| > 0 {
      FoldTotals(Step(s, ds[0]), ds[1..]);
    }
  }

  /** Starting from a missing record, the totals are exactly the word counts and the number of
      updates. */
  lemma FoldFromMissing(ds: seq<StatsDelta>)
    ensures Fold(Current(None), ds).totalWords == SumWords(ds)
    ensures Fold(Current(None), ds).sessionsCount == |ds|
  {
    FoldTotals(Current(None), ds);
  }
}
