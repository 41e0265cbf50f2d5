/** Result records shared by the analysers of every surface, and the few counting rules more than
    one surface applies in the same way. */
module Analysis {
  import opened Text

  // ---------------------------------------------------------------- grammar issues

  datatype IssueKind = Spacing | Punctuation | Capitalization | Style | Repetition

  /** An issue as the analysers report it. The toolbar and the background worker attach a
      `position`, the side panel a `suggestion`. */
  datatype Issue = Issue(kind: IssueKind, message: string, suggestion: Option<string>, position: Option<int>)

  function Kinds(issues: seq<Issue>): (ks: seq<IssueKind>)
    ensures |ks| == |issues|
    ensures forall i :: 0 <= i < |issues| ==> ks[i] == issues[i].kind
  {
    if |issues| == 0 then [] else [issues[0].kind] + Kinds(issues[1..])
  }

  lemma KindsAppend(a: seq<Issue>, b: seq<Issue>)
    ensures Kinds(a + b) == Kinds(a) + Kinds(b)
  {
  }

  /** `s.match(/[.!?]$/)`: the last character ends a sentence. */
  predicate EndsWithTerminator(s: string) {
    |s| > 0 && IsTerminator(s[|s| - 1])
  }

  // ---------------------------------------------------------------- tone and sentiment

  /** A quotient of counts compared with a whole number, without dividing. */
  lemma RatioCompare(a: nat, b: nat, k: nat)
    requires b > 0
    ensures (a as real / b as real > k as real) <==> a > k * b
    ensures (a as real / b as real < k as real) <==> a < k * b
  {
  }

  /** Scaling by a positive factor keeps a strict order. */
  lemma ScaleKeepsOrder(x: real, y: real, m: real)
    requires m > 0.0
    ensures x < y <==> x * m < y * m
  {
    assert y * m - x * m == (y - x) * m;
  }

  /** A quotient of counts compared with a fraction `p/q`, without dividing. */
  lemma RatioCompareFraction(a: nat, b: nat, p: nat, q: nat)
    requires b > 0 && q > 0
    ensures (a as real / b as real < p as real / q as real) <==> a * q < p * b
  {
    var x := a as real / b as real;
    var y := p as real / q as real;
    var m := b as real * q as real;
    assert x * (b as real) == a as real;
    assert y * (q as real) == p as real;
    assert x * m == (x * (b as real)) * (q as real);
    assert y * m == (y * (q as real)) * (b as real);
    assert (a * q) as real == (a as real) * (q as real);
    assert (p * b) as real == (p as real) * (b as real);
    ScaleKeepsOrder(x, y, m);
  }

  /** `text.replace(/\s+/g, '').length / text.split(/\s+/).length`; the divisor is never 0. */
  ghost function AvgWordLength(text: string): real {
    NonWsCount(text) as real / |SplitWs(text)| as real
  }

  datatype Tone = Formal | Casual | Neutral

  function ToneName(t: Tone): string {
    match t
    case Formal => "formal"
    case Casual => "casual"
    case Neutral => "neutral"
  }

  datatype Mood = Positive | Negative | Balanced

  /** The name the analysers give a mood; a balanced text is reported as 'neutral'. */
  function MoodName(m: Mood): string {
    match m
    case Positive => "positive"
    case Negative => "negative"
    case Balanced => "neutral"
  }

  /** `words.filter(word => lowerText.includes(word)).length`: how many entries of the list occur
      somewhere in the text as substrings. */
  function CountIncluded(text: string, words: seq<string>): (n: nat)
    ensures n <= |words|
  {
    if |words| == 0 then 0
    else CountIncluded(text, words[..|words| - 1]) + (if Contains(text, words[|words| - 1]) then 1 else 0)
  }

  /** The list words found in the text. */
  function IncludedSet(text: string, words: seq<string>): set<string> {
    set w | w in words && Contains(text, w)
  }

  /** For a list without duplicates, the count is the number of DISTINCT list words present:
      a list word that occurs many times counts once. */
  lemma {:induction false} CountIncludedDistinct(text: string, words: seq<string>)
    requires forall i, j :: 0 <= i < j < |words| ==> words[i] != words[j]
    ensures CountIncluded(text, words) == |IncludedSet(text, words)|
    decreases |words|
  {
    if |words| > 0 {
      var n := |words| - 1;
      var init := words[..n];
      CountIncludedDistinct(text, init);
      assert words == init + [words[n]];
      var w := words[n];
      assert forall i :: 0 <= i < n ==> init[i] != w;
      if Contains(text, w) {
        assert IncludedSet(text, words) == IncludedSet(text, init) + {w};
      } else {
        assert IncludedSet(text, words) == IncludedSet(text, init);
      }
    }
  }

  // ---------------------------------------------------------------- sentence lengths

  /** `sentences.reduce((sum, s) => sum + s.split(/\s+/).length, 0)`. */
  function TokenTotal(sentences: seq<string>): (n: nat)
    ensures n >= |sentences|
  {
    if |sentences| == 0 then 0
    else TokenTotal(sentences[..|sentences| - 1]) + |SplitWs(sentences[|sentences| - 1])|
  }

  /** The total is a sum: one sentence contributes its field count, and the total of two
      lists of sentences put together is the sum of their totals. */
  lemma {:induction false} TokenTotalSum(a: seq<string>, b: seq<string>)
    ensures TokenTotal(a + b) == TokenTotal(a) + TokenTotal(b)
    ensures |a| == 1 ==> TokenTotal(a) == |SplitWs(a[0])|
    decreases |b|
  {
    assert [] + a == a;
    if |b| == 0 {
      assert a + b == a;
    } else {
      var n := |b| - 1;
      assert (a + b)[..|a + b| - 1] == a + b[..n];
      TokenTotalSum(a, b[..n]);
    }
    if |a| == 1 {
      assert a[..0] == [];
    }
  }

  // ---------------------------------------------------------------- the stored statistics record

  /** The `writingStats` record kept in storage. */
  datatype WritingStats = WritingStats(
    totalWords: int,
    sessionsCount: int,
    avgSentenceLength: int,
    toneDistribution: map<string, int>)

  /** All counters at zero and the three tones at zero: what a missing record defaults to and
      what a reset writes. */
  function EmptyStats(): (r: WritingStats)
    ensures r.totalWords == 0 && r.sessionsCount == 0 && r.avgSentenceLength == 0
    ensures r.toneDistribution.Keys == {"formal", "casual", "neutral"}
    ensures forall t :: t in r.toneDistribution ==> r.toneDistribution[t] == 0
  {
    WritingStats(0, 0, 0, map["formal" := 0, "casual" := 0, "neutral" := 0])
  }

  // ---------------------------------------------------------------- rewritten texts

  /** The three rephrasings a surface offers. */
  datatype Rephrasing = Rephrasing(formal: string, simple: string, creative: string)

  // ---------------------------------------------------------------- list renderings

  /** Whether a text was shortened into a list or lengthened. */
  datatype RewriteKind = Condense | Expand

  const Bullet := "\U{2022} "

  /** `prefix + sentence.trim()` for every sentence. */
  function PrefixedLines(prefix: string, ss: seq<string>): (lines: seq<string>)
    ensures |lines| == |ss|
  {
    seq(|ss|, i requires 0 <= i < |ss| => prefix + Trim(ss[i]))
  }

  /** Lines built from sentences free of line breaks hold none either. */
  lemma PrefixedFree(prefix: string, ss: seq<string>)
    requires '\n' !in prefix
    requires forall k :: 0 <= k < |ss| ==> '\n' !in ss[k]
    ensures forall k :: 0 <= k < |ss| ==> '\n' !in PrefixedLines(prefix, ss)[k]
  {
    forall k | 0 <= k < |ss| ensures '\n' !in PrefixedLines(prefix, ss)[k] {
      TrimKeepsAbsent(ss[k], '\n');
    }
  }
}
