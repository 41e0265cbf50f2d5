/** The writing tools of the in-page toolbar (content.js): grammar, tone and sentiment, summary,
    rephrasing, expand/condense, simplification, list formats, the theme cycle and the word
    counter. Confidences are in hundredths and sentiment scores in tenths. */
module Content {
  import opened Text
  import opened Words
  import opened Numerals
  import opened Analysis

  // ---------------------------------------------------------------- analyzeGrammar

  const SpacingMessage := "Multiple consecutive spaces detected"
  const PunctuationMessage := "Missing punctuation at the end of sentence"
  const CapitalizationMessage := "Sentence should start with a capital letter"

  /** Where an issue points and what it says: the first double space, the last index, or 0. */
  predicate Located(text: string, issue: Issue) {
    && issue.suggestion.None? && issue.position.Some?
    && (issue.kind == Spacing ==>
          issue.message == SpacingMessage && IsFirstOccurrence(text, "  ", issue.position.value))
    && (issue.kind == Punctuation ==>
          issue.message == PunctuationMessage && issue.position.value == |text| - 1)
    && (issue.kind == Capitalization ==>
          issue.message == CapitalizationMessage && issue.position.value == 0)
  }

  /** The three checks run in order and each pushes at most one issue: spacing at the first
      double space, punctuation at the last index of a text longer than ten characters whose
      trimmed form does not end a sentence, capitalisation at 0 when the text does not open with
      A-Z. */
  method AnalyzeGrammar(text: string) returns (issues: seq<Issue>)
    ensures |issues| <= 3
    ensures Kinds(issues)
      == (if Contains(text, "  ") then [Spacing] else [])
       + (if |text| > 10 && !EndsWithTerminator(Trim(text)) then [Punctuation] else [])
       + (if |text| > 0 && !IsUpperAZ(text[0]) then [Capitalization] else [])
    ensures forall issue <- issues :: Located(text, issue)
  {
    var spacing: seq<Issue> := [];
    if Contains(text, "  ") {
      var at := IndexOf(text, "  ");
      assert IsFirstOccurrence(text, "  ", at);
      spacing := [Issue(Spacing, SpacingMessage, None, Some(at))];
    }
    assert forall issue <- spacing :: Located(text, issue);
    assert Kinds(spacing) == if Contains(text, "  ") then [Spacing] else [];
    var punctuation: seq<Issue> := [];
    if |text| > 10 && !EndsWithTerminator(Trim(text)) {
      punctuation := [Issue(Punctuation, PunctuationMessage, None, Some(|text| - 1))];
    }
    assert forall issue <- punctuation :: Located(text, issue);
    assert Kinds(punctuation) == if |text| > 10 && !EndsWithTerminator(Trim(text)) then [Punctuation] else [];
    var capitalization: seq<Issue> := [];
    if |text| > 0 && !IsUpperAZ(text[0]) {
      capitalization := [Issue(Capitalization, CapitalizationMessage, None, Some(0))];
    }
    assert forall issue <- capitalization :: Located(text, issue);
    assert Kinds(capitalization) == if |text| > 0 && !IsUpperAZ(text[0]) then [Capitalization] else [];
    issues := spacing + punctuation + capitalization;
    KindsAppend(spacing, punctuation);
    KindsAppend(spacing + punctuation, capitalization);
  }

  // ---------------------------------------------------------------- analyzeTone

  datatype ToneReport = ToneReport(tone: Tone, confidence: nat, mood: Mood, score: nat)

  const PositiveWords: seq<string> := ["good", "great", "excellent", "amazing", "wonderful"]
  const NegativeWords: seq<string> := ["bad", "terrible", "awful", "poor", "disappointing"]

  /** The tone by cross-multiplied averages: formal for long words and no `!`, otherwise casual
      for more than one `!` or short words, otherwise neutral. */
  function ToneOf(text: string): (t: Tone)
    ensures t == Formal <==> AvgWordLength(text) > 6.0 && CountChar(text, '!') == 0
    ensures t == Casual <==>
      !(AvgWordLength(text) > 6.0 && CountChar(text, '!') == 0)
      && (CountChar(text, '!') > 1 || AvgWordLength(text) < 4.0)
  {
    var words := |SplitWs(text)|;
    var letters := NonWsCount(text);
    var bangs := CountChar(text, '!');
    RatioCompare(letters, words, 6);
    RatioCompare(letters, words, 4);
    if letters > 6 * words && bangs == 0 then Formal
    else if bangs > 1 || letters < 4 * words then Casual
    else Neutral
  }

  /** The mood by the number of distinct list words present in the lower-cased text. */
  function MoodOf(text: string): (m: Mood)
    ensures var pos := |IncludedSet(Lower(text), PositiveWords)|;
      var neg := |IncludedSet(Lower(text), NegativeWords)|;
      && (m == Positive <==> pos > neg)
      && (m == Negative <==> neg > pos)
  {
    var lower := Lower(text);
    CountIncludedDistinct(lower, PositiveWords);
    CountIncludedDistinct(lower, NegativeWords);
    var pos := CountIncluded(lower, PositiveWords);
    var neg := CountIncluded(lower, NegativeWords);
    if pos > neg then Positive else if neg > pos then Negative else Balanced
  }

  /** Tone with confidence 0.85, 0.80 or 0.75 and mood with score 0.7, 0.3 or 0.5. */
  function AnalyzeTone(text: string): (r: ToneReport)
    ensures r.tone == ToneOf(text) && r.mood == MoodOf(text)
    ensures r.confidence == (match r.tone case Formal => 85 case Casual => 80 case Neutral => 75)
    ensures r.score == (match r.mood case Positive => 7 case Negative => 3 case Balanced => 5)
  {
    var tone := ToneOf(text);
    var mood := MoodOf(text);
    ToneReport(
      tone,
      match tone case Formal => 85 case Casual => 80 case Neutral => 75,
      mood,
      match mood case Positive => 7 case Negative => 3 case Balanced => 5)
  }

  // ---------------------------------------------------------------- summarizeText

  datatype Summary = Summary(brief: string, detailed: string)

  /** Up to two sentences: the text itself. Otherwise the first sentence, and the first, middle
      (`floor(n/2)`) and last sentences, each trimmed and closed by a period. */
  function SummarizeText(text: string): (r: Summary)
    ensures |SplitSentences(text)| <= 2 ==> r.brief == text && r.detailed == text
  {
    var ss := SplitSentences(text);
    var n := |ss|;
    if n <= 2 then Summary(text, text)
    else
      Summary(
        Trim(ss[0]) + ".",
        Join([Trim(ss[0]), Trim(ss[n / 2]), Trim(ss[n - 1])], ". ") + ".")
  }

  /** Read back as sentences, a summary of three or more sentences has exactly one sentence in
      its brief form (the first) and exactly three in its detailed form (first, middle, last). */
  lemma SummaryResplits(text: string)
    requires |SplitSentences(text)| > 2
    ensures var ss := SplitSentences(text);
      var n := |ss|;
      && MapTrim(SplitSentences(SummarizeText(text).brief)) == [Trim(ss[0])]
      && MapTrim(SplitSentences(SummarizeText(text).detailed)) == [Trim(ss[0]), Trim(ss[n / 2]), Trim(ss[n - 1])]
  {
    var ss := SplitSentences(text);
    var n := |ss|;
    BriefResplits(ss);
    DetailedResplits(ss);
  }

  lemma BriefResplits(ss: seq<string>)
    requires |ss| > 0 && |Trim(ss[0])| > 0 && NoDelim(Terminators, ss[0])
    ensures MapTrim(SplitSentences(Trim(ss[0]) + ".")) == [Trim(ss[0])]
  {
    TrimmedSentenceClean(ss[0]);
    assert Join([Trim(ss[0])], ". ") == Trim(ss[0]);
    ResplitSentences([Trim(ss[0])]);
  }

  lemma DetailedResplits(ss: seq<string>)
    requires |ss| > 2
    requires forall k :: 0 <= k < |ss| ==> |Trim(ss[k])| > 0 && NoDelim(Terminators, ss[k])
    ensures var n := |ss|;
      var picked := [Trim(ss[0]), Trim(ss[n / 2]), Trim(ss[n - 1])];
      MapTrim(SplitSentences(Join(picked, ". ") + ".")) == picked
  {
    var n := |ss|;
    TrimmedSentenceClean(ss[0]);
    TrimmedSentenceClean(ss[n / 2]);
    TrimmedSentenceClean(ss[n - 1]);
    ResplitSentences([Trim(ss[0]), Trim(ss[n / 2]), Trim(ss[n - 1])]);
  }

  // ---------------------------------------------------------------- rephraseText

  const FormalRules: seq<Rule> := [Rule(["get", "got"], "obtain"), Rule(["very", "really"], "extremely"), Rule(["but"], "however")]
  const SimpleRules: seq<Rule> := [Rule(["obtain", "acquire"], "get"), Rule(["utilize"], "use"), Rule(["demonstrate"], "show")]
  const CreativeRules: seq<Rule> := [Rule(["good"], "remarkable"), Rule(["said"], "expressed"), Rule(["important"], "crucial")]

  /** Three chains of case-insensitive whole-word replacements. */
  function RephraseText(text: string): Rephrasing {
    Rephrasing(ApplyRules(text, FormalRules), ApplyRules(text, SimpleRules), ApplyRules(text, CreativeRules))
  }

  lemma FormalTable()
    ensures WordRules(FormalRules) && NoRewriteBack(FormalRules)
  {
    FormalWords();
    LowerIdentity("obtain"); LowerIdentity("extremely"); LowerIdentity("however");
    AllFresh(FormalRules);
  }

  lemma FormalWords()
    ensures WordRules(FormalRules)
  {
    assert AllWords(["get", "got"]) && AllWords(["very", "really"]) && AllWords(["but"]);
    assert IsWord("obtain") && IsWord("extremely") && IsWord("however");
  }

  lemma SimpleTable()
    ensures WordRules(SimpleRules) && NoRewriteBack(SimpleRules)
  {
    SimpleWords();
    LowerIdentity("get"); LowerIdentity("use"); LowerIdentity("show");
    AllFresh(SimpleRules);
  }

  lemma SimpleWords()
    ensures WordRules(SimpleRules)
  {
    assert AllWords(["obtain", "acquire"]) && AllWords(["utilize"]) && AllWords(["demonstrate"]);
    assert IsWord("get") && IsWord("use") && IsWord("show");
  }

  lemma CreativeTable()
    ensures WordRules(CreativeRules) && NoRewriteBack(CreativeRules)
  {
    CreativeWords();
    LowerIdentity("remarkable"); LowerIdentity("expressed"); LowerIdentity("crucial");
    AllFresh(CreativeRules);
  }

  lemma CreativeWords()
    ensures WordRules(CreativeRules)
  {
    OneWordRule("good", "remarkable");
    OneWordRule("said", "expressed");
    OneWordRule("important", "crucial");
  }

  /** Every word a rephrasing replaces is absent, as a whole word in any letter case, from that
      rephrasing: no later replacement brings an earlier word back. */
  lemma RephraseRemovesWords(text: string)
    ensures forall i, q :: 0 <= i < |FormalRules| && q in FormalRules[i].alts ==> !HasWord(RephraseText(text).formal, [q])
    ensures forall i, q :: 0 <= i < |SimpleRules| && q in SimpleRules[i].alts ==> !HasWord(RephraseText(text).simple, [q])
    ensures forall i, q :: 0 <= i < |CreativeRules| && q in CreativeRules[i].alts ==> !HasWord(RephraseText(text).creative, [q])
  {
    FormalTable();
    SimpleTable();
    CreativeTable();
    ChainEliminatesAll(text, FormalRules);
    ChainEliminatesAll(text, SimpleRules);
    ChainEliminatesAll(text, CreativeRules);
  }

  /** A text holding none of a table's words is returned unchanged by that rephrasing. */
  lemma RephraseKeepsPlainText(text: string)
    ensures FindsNone(text, FormalRules) ==> RephraseText(text).formal == text
    ensures FindsNone(text, SimpleRules) ==> RephraseText(text).simple == text
    ensures FindsNone(text, CreativeRules) ==> RephraseText(text).creative == text
  {
    if FindsNone(text, FormalRules) {
      ChainKeepsPlainText(text, FormalRules);
    }
    if FindsNone(text, SimpleRules) {
      ChainKeepsPlainText(text, SimpleRules);
    }
    if FindsNone(text, CreativeRules) {
      ChainKeepsPlainText(text, CreativeRules);
    }
  }

  // ---------------------------------------------------------------- expandText

  datatype Rewrite = Rewrite(kind: RewriteKind, result: string)

  const ExpandSuffix := " Furthermore, this concept provides valuable insights that enhance our understanding."

  /** `i + 1. sentence` for the first sentences, trimmed. */
  function NumberedLines(ss: seq<string>): (lines: seq<string>)
    ensures |lines| == |ss|
  {
    seq(|ss|, i requires 0 <= i < |ss| => Decimal(i + 1) + ". " + Trim(ss[i]))
  }

  /** More than 50 whitespace fields: the first three sentences as numbered lines. Otherwise the
      text followed by a fixed sentence. */
  function ExpandText(text: string): (r: Rewrite)
    ensures r.kind == Condense <==> |SplitWs(text)| > 50
    ensures r.kind == Expand ==> r.result == text + ExpandSuffix && r.result[..|text|] == text
  {
    if |SplitWs(text)| > 50 then Rewrite(Condense, Join(NumberedLines(Take(SplitSentences(text), 3)), "\n"))
    else Rewrite(Expand, text + ExpandSuffix)
  }

  /** For a text without line breaks the condensed form has one line per sentence, at most three,
      each opening with its number. */
  lemma CondensedLines(text: string)
    requires |SplitWs(text)| > 50 && '\n' !in text && |SplitSentences(text)| > 0
    ensures var lines := SplitAt(ExpandText(text).result, '\n');
      && |lines| == (if |SplitSentences(text)| < 3 then |SplitSentences(text)| else 3)
      && forall i :: 0 <= i < |lines| ==> lines[i] == Decimal(i + 1) + ". " + Trim(SplitSentences(text)[i])
  {
    SentencesKeepAbsent(text, '\n');
    NumberedOfFirst(SplitSentences(text), text);
  }

  /** The numbered lines of the first three of `all` split back apart at line breaks. */
  lemma NumberedOfFirst(all: seq<string>, text: string)
    requires '\n' !in text && |all| > 0
    requires forall k :: 0 <= k < |all| ==> '\n' !in all[k]
    ensures var lines := SplitAt(Join(NumberedLines(Take(all, 3)), "\n"), '\n');
      && |lines| == (if |all| < 3 then |all| else 3)
      && forall i :: 0 <= i < |lines| ==> lines[i] == Decimal(i + 1) + ". " + Trim(all[i])
  {
    var ss := Take(all, 3);
    var numbered := NumberedLines(ss);
    LinesFree(ss, text);
    SplitAtJoin(numbered, '\n');
    var lines := SplitAt(Join(numbered, "\n"), '\n');
    assert lines == numbered;
    forall i | 0 <= i < |lines|
      ensures lines[i] == Decimal(i + 1) + ". " + Trim(all[i])
    {
      assert ss[i] == all[i];
    }
  }

  // ---------------------------------------------------------------- simplifyText

  datatype Simplification = Simplification(original: string, simplified: string, changes: string)

  const SimplifyTable: seq<Rule> := [
    Rule(["utilize"], "use"),
    Rule(["implement"], "do"),
    Rule(["facilitate"], "help"),
    Rule(["demonstrate"], "show"),
    Rule(["approximately"], "about")
  ]

  /** The message reporting `n` simplified terms. */
  function ChangeMessage(n: nat): (m: string)
    ensures m == "Text is already simple!" <==> n == 0
  {
    var m := if n > 0 then "Simplified " + Decimal(n) + " complex terms!" else "Text is already simple!";
    assert n > 0 ==> m[0] != "Text is already simple!"[0];
    m
  }

  /** Walks the table in order, replacing each complex word by its simple one and counting the
      entries that changed the text: the count is the number of table words that occur in the
      input, since no simple word is a later complex word. */
  method SimplifyText(text: string) returns (r: Simplification)
    ensures r.original == text
    ensures r.simplified == ApplyRules(text, SimplifyTable)
    ensures r.changes == ChangeMessage(CountFound(text, SimplifyTable))
    ensures r.changes == "Text is already simple!" <==> CountFound(text, SimplifyTable) == 0
    ensures CountFound(text, SimplifyTable) == 0 ==> r.simplified == text
  {
    var simplified, changeCount := SimplifyLoop(text);
    if changeCount == 0 {
      NoneFound(text, SimplifyTable);
      ChainIdentity(text, SimplifyTable);
    }
    r := Simplification(text, simplified, ChangeMessage(changeCount));
  }

  /** The loop over the table. */
  method SimplifyLoop(text: string) returns (simplified: string, changeCount: nat)
    ensures simplified == ApplyRules(text, SimplifyTable)
    ensures changeCount == CountFound(text, SimplifyTable)
  {
    simplified := text;
    changeCount := 0;
    var i := 0;
    while i < |SimplifyTable|
      invariant 0 <= i <= |SimplifyTable|
      invariant simplified == ApplyRules(text, SimplifyTable[..i])
      invariant changeCount == CountFound(text, SimplifyTable[..i])
    {
      var rule := SimplifyTable[i];
      var newText := ReplaceWords(simplified, rule.alts, rule.rep);
      SimplifyStep(text, i);
      ChainAdvance(text, SimplifyTable, i);
      if newText != simplified {
        changeCount := changeCount + 1;
        simplified := newText;
      }
      i := i + 1;
    }
    assert SimplifyTable[..i] == SimplifyTable;
  }

  /** Entry `i` of the table changes the partly simplified text exactly when its word occurs in
      the original text. */
  lemma SimplifyStep(text: string, i: nat)
    requires i < |SimplifyTable|
    ensures var before := ApplyRules(text, SimplifyTable[..i]);
      (ReplaceWords(before, SimplifyTable[i].alts, SimplifyTable[i].rep) != before)
        == HasWord(text, SimplifyTable[i].alts)
  {
    SimplifyTableWords();
    SimplifyTableShorter();
    SimplifyNoWriteAhead();
    ChainStep(text, SimplifyTable, i);
  }

  lemma SimplifyTableShorter()
    ensures forall i :: 0 <= i < |SimplifyTable| ==>
      |SimplifyTable[i].alts| == 1 && ShorterThanAll(SimplifyTable[i].rep, SimplifyTable[i].alts)
  {
  }

  lemma SimplifyTableWords()
    ensures WordRules(SimplifyTable)
  {
    OneWordRule("utilize", "use");
    OneWordRule("implement", "do");
    OneWordRule("facilitate", "help");
    OneWordRule("demonstrate", "show");
    OneWordRule("approximately", "about");
  }

  lemma SimplifyNoRewriteBack()
    ensures NoRewriteBack(SimplifyTable)
  {
    LowerIdentity("use"); LowerIdentity("do"); LowerIdentity("help"); LowerIdentity("show"); LowerIdentity("about");
    AllFresh(SimplifyTable);
  }

  lemma SimplifyNoWriteAhead()
    ensures NoWriteAhead(SimplifyTable)
  {
    LowerIdentity("use"); LowerIdentity("do"); LowerIdentity("help"); LowerIdentity("show"); LowerIdentity("about");
    AllClearBefore(SimplifyTable);
  }

  /** After simplification none of the complex words is left. */
  lemma SimplifyRemovesComplexWords(text: string)
    ensures forall i, q :: 0 <= i < |SimplifyTable| && q in SimplifyTable[i].alts ==> !HasWord(ApplyRules(text, SimplifyTable), [q])
  {
    SimplifyTableWords();
    SimplifyNoRewriteBack();
    ChainEliminatesAll(text, SimplifyTable);
  }

  // ---------------------------------------------------------------- convertToBullets

  datatype ListForms = ListForms(bullets: string, numbered: string, checkboxes: string, arrows: string)

  const Checkbox := "\U{2610} "
  const Arrow := "\U{2192} "

  /** Four list renderings of the non-blank sentences, one line each, joined by newlines. */
  function ConvertToBullets(text: string): ListForms {
    var ss := SplitSentences(text);
    ListForms(
      Join(PrefixedLines(Bullet, ss), "\n"),
      Join(NumberedLines(ss), "\n"),
      Join(PrefixedLines(Checkbox, ss), "\n"),
      Join(PrefixedLines(Arrow, ss), "\n"))
  }

  /** A text with no sentence gives four empty strings; otherwise, when the text holds no line
      break, every rendering has exactly one line per sentence, carrying its marker and the
      trimmed sentence. */
  lemma BulletLines(text: string)
    ensures |SplitSentences(text)| == 0 ==> ConvertToBullets(text) == ListForms("", "", "", "")
    ensures '\n' !in text && |SplitSentences(text)| > 0 ==>
      var ss := SplitSentences(text);
      var r := ConvertToBullets(text);
      && SplitAt(r.bullets, '\n') == PrefixedLines(Bullet, ss)
      && SplitAt(r.numbered, '\n') == NumberedLines(ss)
      && SplitAt(r.checkboxes, '\n') == PrefixedLines(Checkbox, ss)
      && SplitAt(r.arrows, '\n') == PrefixedLines(Arrow, ss)
  {
    var ss := SplitSentences(text);
    if '\n' !in text && |ss| > 0 {
      SentencesKeepAbsent(text, '\n');
      LinesFree(ss, text);
      PrefixedFree(Bullet, ss);
      PrefixedFree(Checkbox, ss);
      PrefixedFree(Arrow, ss);
      SplitAtJoin(PrefixedLines(Bullet, ss), '\n');
      SplitAtJoin(NumberedLines(ss), '\n');
      SplitAtJoin(PrefixedLines(Checkbox, ss), '\n');
      SplitAtJoin(PrefixedLines(Arrow, ss), '\n');
    }
  }

  /** Sentences of a text without line breaks hold none, and neither do their rendered lines. */
  lemma LinesFree(ss: seq<string>, text: string)
    requires '\n' !in text
    requires forall k :: 0 <= k < |ss| ==> '\n' !in ss[k]
    ensures forall k :: 0 <= k < |NumberedLines(ss)| ==> '\n' !in NumberedLines(ss)[k]
  {
    forall k | 0 <= k < |ss| ensures '\n' !in NumberedLines(ss)[k] {
      TrimKeepsAbsent(ss[k], '\n');
      var d := Decimal(k + 1);
      assert forall j :: 0 <= j < |d| ==> IsDigit(d[j]);
    }
  }

  // ---------------------------------------------------------------- toggleTheme

  const Themes: seq<string> := ["auto", "light", "dark"]

  /** `themes.indexOf(t)`. */
  function ThemeIndex(t: string): (i: int)
    ensures -1 <= i < 3
    ensures i >= 0 ==> Themes[i] == t
    ensures i == -1 <==> t !in Themes
  {
    if t == "auto" then 0 else if t == "light" then 1 else if t == "dark" then 2 else -1
  }

  /** The theme after a click, given the stored theme (`None` when unset). An unset or empty
      theme counts as 'auto'; an unknown one has index -1 and so moves to 'auto'. */
  function NextTheme(stored: Option<string>): (t: string)
    ensures t in Themes
  {
    var current := if stored.None? || stored.value == "" then "auto" else stored.value;
    Themes[(ThemeIndex(current) + 1) % 3]
  }

  /** Three clicks bring every theme back, and every click changes it; an unset theme moves to
      'light' and an unknown one to 'auto'. */
  lemma ThemeCycle(t: string)
    ensures t in Themes ==> NextTheme(Some(NextTheme(Some(NextTheme(Some(t)))))) == t
    ensures t in Themes ==> NextTheme(Some(t)) != t
    ensures t != "" && t !in Themes ==> NextTheme(Some(t)) == "auto"
    ensures NextTheme(None) == "light"
  {
    ThemeSteps();
    if t != "" && t !in Themes {
      assert ThemeIndex(t) == -1;
    }
  }

  /** One click from each of the three themes. */
  lemma ThemeSteps()
    ensures NextTheme(Some("auto")) == "light"
    ensures NextTheme(Some("light")) == "dark"
    ensures NextTheme(Some("dark")) == "auto"
  {
    assert ThemeIndex("auto") == 0;
    assert ThemeIndex("light") == 1;
    assert ThemeIndex("dark") == 2;
  }

  // ---------------------------------------------------------------- word counter

  /** `text.trim().length > 0 ? text.trim().split(/\s+/).length : 0`. */
  function CounterWords(text: string): (n: nat)
    ensures n == 0 <==> |Trim(text)| == 0
  {
    if |Trim(text)| > 0 then |SplitWs(Trim(text))| else 0
  }

  /** Words separated by single spaces are counted one by one. */
  lemma CounterWordsOfWords(ws: seq<string>)
    requires |ws| > 0 && AreWords(ws)
    ensures CounterWords(Join(ws, " ")) == |ws|
  {
    JoinedWordsTrimmed(ws);
    TrimOfTrimmed(Join(ws, " "));
    JoinStartsWith(ws, " ");
    SplitWsJoin(ws);
  }
}
