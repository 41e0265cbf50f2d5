/** The side panel (sidepanel.js): the statistics shown under the editor and the analyses behind
    its five buttons. The panel hands every analysis the trimmed editor text. */
module SidePanel {
  import opened Text
  import opened Words
  import opened Numerals
  import opened Analysis

  // ---------------------------------------------------------------- updateStats

  datatype TextStats = TextStats(words: nat, chars: nat, sentences: nat)

  /** Word, character and sentence counts of the trimmed editor text; a blank text counts zero
      of each, any other text at least one word. */
  function UpdateStats(currentText: string): (r: TextStats)
    ensures r.chars == |Trim(currentText)|
    ensures r.chars == 0 ==> r.words == 0 && r.sentences == 0
    ensures r.chars > 0 ==> r.words >= 1
  {
    var text := Trim(currentText);
    TextStats(
      if |text| > 0 then |SplitWs(text)| else 0,
      |text|,
      if |text| > 0 then |SplitSentences(text)| else 0)
  }

  /** Words joined by single spaces count as that many words and as their letters plus the
      spaces; without a terminator among them they form exactly one sentence. */
  lemma StatsOfWords(ws: seq<string>)
    requires |ws| > 0 && AreWords(ws)
    ensures var r := UpdateStats(Join(ws, " "));
      && r.words == |ws|
      && r.chars == TotalLength(ws) + |ws| - 1
      && ((forall k :: 0 <= k < |ws| ==> NoDelim(Terminators, ws[k])) ==> r.sentences == 1)
  {
    var t := Join(ws, " ");
    JoinStartsWith(ws, " ");
    JoinedWordsTrimmed(ws);
    TrimOfTrimmed(t);
    SplitWsJoin(ws);
    JoinLength(ws, " ");
    if forall k :: 0 <= k < |ws| ==> NoDelim(Terminators, ws[k]) {
      JoinedOneSentence(ws);
    }
  }

  lemma JoinedOneSentence(ws: seq<string>)
    requires |ws| > 0 && AreWords(ws)
    requires forall k :: 0 <= k < |ws| ==> NoDelim(Terminators, ws[k])
    ensures |SplitSentences(Join(ws, " "))| == 1
  {
    var t := Join(ws, " ");
    JoinStartsWith(ws, " ");
    JoinedWordsTrimmed(ws);
    TrimOfTrimmed(t);
    JoinNoTerminators(ws, " ");
    SplitRunsNoDelim(t, Terminators);
    KeepNonBlankCons(t, []);
  }

  // ---------------------------------------------------------------- checkGrammar

  const PanelSpacing := Issue(Spacing, "Multiple spaces detected", Some("Use single spaces between words"), None)
  const PanelPunctuation := Issue(Punctuation, "Missing end punctuation", Some("Add a period, exclamation mark, or question mark"), None)
  const PanelStyle := Issue(Style, "Passive voice detected", Some("Consider using active voice for clarity"), None)

  const Auxiliaries: seq<string> := ["was", "were", "been", "being"]

  /** `\w+ed\b` at `k`: the run of word characters starting there is at least three long and
      ends in "ed", in either letter case. */
  predicate ParticipleAt(text: string, k: nat) {
    k < |text| && IsParticiple(text[k..])
  }

  /** The word-character run at the start of `t` is at least three long and ends in "ed". */
  predicate IsParticiple(t: string) {
    var m := RunEnd(t); m >= 3 && Lower(t[m - 2..m]) == "ed"
  }

  /** The auxiliary `aux` at `i`, in any letter case, then whitespace and a participle after
      the whole whitespace run. */
  predicate AuxiliaryAt(text: string, i: nat, aux: string) {
    && i + |aux| < |text|
    && Lower(text[i..i + |aux|]) == aux
    && IsWs(text[i + |aux|])
    && ParticipleAt(text, SkipDelims(text, i + |aux|, Whitespace))
  }

  /** `\b(was|were|been|being)\s+\w+ed\b` (case-insensitive) matches at `i`: a word boundary,
      then one of the auxiliaries as above. */
  predicate PassiveAt(text: string, i: nat) {
    && i < |text|
    && (i == 0 || !IsWordChar(text[i - 1]))
    && (AuxiliaryAt(text, i, "was") || AuxiliaryAt(text, i, "were")
        || AuxiliaryAt(text, i, "been") || AuxiliaryAt(text, i, "being"))
  }

  /** The pattern matches at `i` or later. */
  predicate PassiveFrom(text: string, i: nat)
    decreases |text| - i
  {
    i < |text| && (PassiveAt(text, i) || PassiveFrom(text, i + 1))
  }

  /** `text.match(...)` finds the pattern somewhere. */
  predicate HasPassive(text: string) {
    PassiveFrom(text, 0)
  }

  lemma {:induction false} PassiveFromAt(text: string, i: nat, j: nat)
    requires i <= j && PassiveAt(text, j)
    ensures PassiveFrom(text, i)
    decreases j - i
  {
    assert j < |text|;
    if i < j {
      PassiveFromAt(text, i + 1, j);
      assert PassiveFrom(text, i + 1);
    }
  }

  /** An auxiliary, a space and a word ending in "ed" is always flagged. */
  lemma PassiveExample(a: string, w: string)
    requires a in Auxiliaries && IsWord(w)
    ensures HasPassive(a + " " + w + "ed")
  {
    var text := a + " " + w + "ed";
    var p := w + "ed";
    assert text == a + " " + p;
    LowerIdentity(a);
    assert text[..|a|] == a;
    assert text[|a|] == ' ';
    assert SkipDelims(text, |a|, Whitespace) == |a| + 1;
    assert text[|a| + 1..] == p;
    ParticipleExample(w);
    assert ParticipleAt(text, |a| + 1);
    assert AuxiliaryAt(text, 0, a);
    assert PassiveAt(text, 0);
  }

  lemma ParticipleExample(w: string)
    requires IsWord(w)
    ensures IsParticiple(w + "ed")
  {
    var p := w + "ed";
    assert IsWord(p);
    assert p + "" == p;
    RunEndOfWordThen(p, "");
    assert p[|p| - 2..] == "ed";
  }

  /** The whitespace run from `i` ends at the same place once letters are lower-cased. */
  lemma {:induction false} SkipDelimsLower(s: string, i: nat)
    requires i <= |s|
    ensures SkipDelims(Lower(s), i, Whitespace) == SkipDelims(s, i, Whitespace)
    decreases |s| - i
  {
    if i < |s| && IsWs(s[i]) {
      SkipDelimsLower(s, i + 1);
    }
  }

  /** So does a run of word characters. */
  lemma {:induction false} RunEndLower(t: string)
    ensures RunEnd(Lower(t)) == RunEnd(t)
    decreases |t|
  {
    if |t| > 0 && IsWordChar(t[0]) {
      assert Lower(t)[1..] == Lower(t[1..]);
      RunEndLower(t[1..]);
    }
  }

  lemma LowerSlice(s: string, i: nat, j: nat)
    requires i <= j <= |s|
    ensures Lower(s)[i..j] == Lower(s[i..j])
    ensures Lower(Lower(s[i..j])) == Lower(s[i..j])
  {
  }

  lemma ParticipleAtLower(text: string, k: nat)
    ensures ParticipleAt(Lower(text), k) == ParticipleAt(text, k)
  {
    if k < |text| {
      TailLower(text, k);
      IsParticipleLower(text[k..]);
    }
  }

  lemma TailLower(text: string, k: nat)
    requires k <= |text|
    ensures Lower(text)[k..] == Lower(text[k..])
  {
    LowerSlice(text, k, |text|);
    assert Lower(text)[k..] == Lower(text)[k..|text|] && text[k..] == text[k..|text|];
  }

  lemma IsParticipleLower(t: string)
    ensures IsParticiple(Lower(t)) == IsParticiple(t)
  {
    RunEndLower(t);
    var m := RunEnd(t);
    if m >= 3 {
      LowerSlice(t, m - 2, m);
    }
  }

  lemma AuxiliaryAtLower(text: string, i: nat, aux: string)
    ensures AuxiliaryAt(Lower(text), i, aux) == AuxiliaryAt(text, i, aux)
  {
    if i + |aux| < |text| {
      LowerSlice(text, i, i + |aux|);
      SkipDelimsLower(text, i + |aux|);
      ParticipleAtLower(text, SkipDelims(text, i + |aux|, Whitespace));
    }
  }

  /** Letter case does not matter to the passive-voice check. */
  lemma {:induction false} PassiveIgnoresCase(text: string, i: nat)
    ensures PassiveFrom(Lower(text), i) == PassiveFrom(text, i)
    decreases |text| - i
  {
    if i < |text| {
      assert Lower(text)[i] == LowerChar(text[i]);
      if i > 0 {
        assert Lower(text)[i - 1] == LowerChar(text[i - 1]);
      }
      AuxiliaryAtLower(text, i, "was");
      AuxiliaryAtLower(text, i, "were");
      AuxiliaryAtLower(text, i, "been");
      AuxiliaryAtLower(text, i, "being");
      PassiveIgnoresCase(text, i + 1);
    }
  }

  /** The tokens longer than four characters in the order of first occurrence: the order in
      which `wordCounts` gains its keys. */
  function FirstSeen(ws: seq<string>): seq<string> {
    if |ws| == 0 then []
    else
      var init := FirstSeen(ws[..|ws| - 1]);
      var w := ws[|ws| - 1];
      if |w| > 4 && w !in init then init + [w] else init
  }

  /** Each token longer than four characters appears in the key order once. */
  lemma {:induction false} FirstSeenKeys(ws: seq<string>)
    ensures Distinct(FirstSeen(ws))
    ensures forall w :: w in FirstSeen(ws) <==> w in ws && |w| > 4
    decreases |ws|
  {
    if |ws| > 0 {
      var w := ws[|ws| - 1];
      assert ws == ws[..|ws| - 1] + [w];
      FirstSeenKeys(ws[..|ws| - 1]);
      if |w| > 4 && w !in FirstSeen(ws[..|ws| - 1]) {
        DistinctConcat(FirstSeen(ws[..|ws| - 1]), [w]);
      }
    }
  }

  /** `wordCounts` after the loop. */
  function Tally(ws: seq<string>): map<string, nat> {
    if |ws| == 0 then map[]
    else
      var init := Tally(ws[..|ws| - 1]);
      var w := ws[|ws| - 1];
      if |w| > 4 then init[w := (if w in init then init[w] else 0) + 1] else init
  }

  /** The count object maps each token longer than four characters to its number of
      occurrences, and holds no other key. */
  lemma {:induction false} TallyCounts(ws: seq<string>)
    ensures forall w :: w in Tally(ws) <==> w in ws && |w| > 4
    ensures forall w :: w in Tally(ws) ==> Tally(ws)[w] == Occurrences(ws, w)
    decreases |ws|
  {
    if |ws| > 0 {
      var w := ws[|ws| - 1];
      assert ws == ws[..|ws| - 1] + [w];
      TallyCounts(ws[..|ws| - 1]);
      OccurrencesPositive(ws[..|ws| - 1], w);
    }
  }

  lemma TallyKeysFirstSeen(ws: seq<string>, w: string)
    ensures (w in Tally(ws)) == (w in FirstSeen(ws))
  {
    TallyCounts(ws);
    FirstSeenKeys(ws);
  }

  lemma TallyCount(ws: seq<string>, w: string)
    requires w in FirstSeen(ws)
    ensures w in Tally(ws) && Tally(ws)[w] == Occurrences(ws, w)
  {
    TallyCounts(ws);
    FirstSeenKeys(ws);
  }

  /** Each key `Object.entries` lists is a key of the count object, with its count. */
  lemma EntryCount(ws: seq<string>, j: nat)
    requires j < |OwnKeys(FirstSeen(ws))|
    ensures var w := OwnKeys(FirstSeen(ws))[j];
      w in Tally(ws) && Tally(ws)[w] == Occurrences(ws, w)
  {
    FirstSeenKeys(ws);
    OwnKeysDistinct(FirstSeen(ws));
    TallyCount(ws, OwnKeys(FirstSeen(ws))[j]);
  }

  /** The keys, in the order given, that occur more than three times among the words. */
  function Repeated(keys: seq<string>, words: seq<string>): seq<string> {
    if |keys| == 0 then []
    else
      var n := |keys| - 1;
      Repeated(keys[..n], words) + (if Occurrences(words, keys[n]) > 3 then [keys[n]] else [])
  }

  /** The repeated keys are the keys occurring more than three times, each as often as among
      the keys. */
  lemma {:induction false} RepeatedKeys(keys: seq<string>, words: seq<string>)
    ensures forall w :: w in Repeated(keys, words) <==> w in keys && Occurrences(words, w) > 3
    ensures Distinct(keys) ==> Distinct(Repeated(keys, words))
    decreases |keys|
  {
    if |keys| > 0 {
      var n := |keys| - 1;
      assert keys == keys[..n] + [keys[n]];
      RepeatedKeys(keys[..n], words);
      if Distinct(keys) {
        assert forall j :: 0 <= j < n ==> keys[..n][j] != keys[n];
        DistinctConcat(Repeated(keys[..n], words), if Occurrences(words, keys[n]) > 3 then [keys[n]] else []);
      }
    }
  }

  function RepetitionIssue(w: string, count: nat): Issue {
    Issue(Repetition, "Word \"" + w + "\" appears " + Decimal(count) + " times", Some("Consider using synonyms for variety"), None)
  }

  /** The repetition issues for the keys, in order. */
  function RepetitionIssues(keys: seq<string>, words: seq<string>): seq<Issue> {
    if |keys| == 0 then []
    else
      var n := |keys| - 1;
      RepetitionIssues(keys[..n], words)
        + (if Occurrences(words, keys[n]) > 3 then [RepetitionIssue(keys[n], Occurrences(words, keys[n]))] else [])
  }

  lemma RepetitionIssuesStep(keys: seq<string>, j: nat, words: seq<string>)
    requires j < |keys|
    ensures var k := keys[j];
      RepetitionIssues(keys[..j + 1], words) == RepetitionIssues(keys[..j], words)
        + (if Occurrences(words, k) > 3 then [RepetitionIssue(k, Occurrences(words, k))] else [])
  {
    assert keys[..j + 1][..j] == keys[..j];
  }

  /** One repetition issue per repeated key, in key order, carrying its number of occurrences. */
  lemma {:induction false} IssuePerRepeatedKey(keys: seq<string>, words: seq<string>)
    ensures var r := Repeated(keys, words);
      var issues := RepetitionIssues(keys, words);
      |issues| == |r| && forall i :: 0 <= i < |r| ==> issues[i] == RepetitionIssue(r[i], Occurrences(words, r[i]))
    decreases |keys|
  {
    if |keys| > 0 {
      IssuePerRepeatedKey(keys[..|keys| - 1], words);
    }
  }

  /** Spacing, punctuation (whatever the length) and passive voice, in that order, then one
      repetition issue per entry of the count object, in `Object.entries` order, whose value
      is a number above three. */
  method CheckGrammar(text: string) returns (issues: seq<Issue>)
    ensures var o := TallyObject(SplitWs(Lower(text)));
      issues == PatternIssues(text) + ObjectIssues(OwnKeys(o.order), o.props)
  {
    issues := ReportPatterns(text);
    var words := SplitWs(Lower(text));
    var wordCounts := CountWords(words);
    var repeated := ReportRepeats(wordCounts);
    issues := issues + repeated;
  }

  /** The issues found by the three pattern tests: each issue at most once, present exactly
      when its test fires, in the order spacing, punctuation, passive voice. */
  function PatternIssues(text: string): (r: seq<Issue>)
    ensures PanelSpacing in r <==> Contains(text, "  ")
    ensures PanelPunctuation in r <==> !EndsWithTerminator(Trim(text))
    ensures PanelStyle in r <==> HasPassive(text)
    ensures |r| <= 3 && Distinct(r)
    ensures |r| > 0 && Contains(text, "  ") ==> r[0] == PanelSpacing
    ensures |r| > 0 && HasPassive(text) ==> r[|r| - 1] == PanelStyle
  {
    Flagged(Contains(text, "  "), !EndsWithTerminator(Trim(text)), HasPassive(text))
  }

  /** The pattern issues whose tests fired, in the order of the tests. */
  function Flagged(spacing: bool, punctuation: bool, passive: bool): (r: seq<Issue>)
    ensures PanelSpacing in r <==> spacing
    ensures PanelPunctuation in r <==> punctuation
    ensures PanelStyle in r <==> passive
    ensures |r| <= 3 && Distinct(r)
    ensures |r| > 0 && spacing ==> r[0] == PanelSpacing
    ensures |r| > 0 && passive ==> r[|r| - 1] == PanelStyle
  {
    (if spacing then [PanelSpacing] else [])
      + (if punctuation then [PanelPunctuation] else [])
      + (if passive then [PanelStyle] else [])
  }

  /** The three pattern tests, each pushing its issue. */
  method ReportPatterns(text: string) returns (issues: seq<Issue>)
    ensures issues == PatternIssues(text)
  {
    var spacing, punctuation, passive := Contains(text, "  "), !EndsWithTerminator(Trim(text)), HasPassive(text);
    issues := [];
    if spacing {
      issues := issues + [PanelSpacing];
    }
    if punctuation {
      issues := issues + [PanelPunctuation];
    }
    if passive {
      issues := issues + [PanelStyle];
    }
    assert issues == Flagged(spacing, punctuation, passive);
  }

  /** A property value of the count object: a number, or anything else `+ 1` has turned into
      a string. */
  datatype CountValue = Count(n: nat) | NonNumber

  /** The plain object `wordCounts`: its own properties, and the order in which it gained them. */
  datatype CountObject = CountObject(props: map<string, CountValue>, order: seq<string>)

  /** Lower-case names that a plain object inherits from `Object.prototype`. */
  const InheritedNames: seq<string> := ["constructor", "__proto__"]

  /** What a plain object without own property `word` yields for `wordCounts[word]`: the
      `Object` function for "constructor", the prototype itself for "__proto__", nothing
      otherwise. Both inherited values are truthy and not numbers. */
  function InheritedValue(word: string): Option<CountValue> {
    if word in InheritedNames then Some(NonNumber) else None
  }

  /** `wordCounts[word]`: the own property, else the inherited one. */
  function Read(o: CountObject, word: string): Option<CountValue> {
    if word in o.props then Some(o.props[word]) else InheritedValue(word)
  }

  /** `(v || 0) + 1`: a number counts up, a missing value starts at one, anything else becomes
      a string. */
  function Incremented(v: Option<CountValue>): CountValue {
    match v
    case None => Count(1)
    case Some(Count(n)) => Count(n + 1)
    case Some(NonNumber) => NonNumber
  }

  /** `wordCounts[word] = v`. Assigning a primitive to `__proto__` is ignored; any other name
      becomes an own property, appended to the key order when new. */
  function Assign(o: CountObject, word: string, v: CountValue): CountObject {
    if word == "__proto__" then o
    else CountObject(o.props[word := v], if word in o.props then o.order else o.order + [word])
  }

  /** `wordCounts` after the `forEach` over the tokens. */
  function TallyObject(ws: seq<string>): CountObject {
    if |ws| == 0 then CountObject(map[], [])
    else
      var o := TallyObject(ws[..|ws| - 1]);
      var w := ws[|ws| - 1];
      if |w| > 4 then Assign(o, w, Incremented(Read(o, w))) else o
  }

  /** The object's own keys are the tokens longer than four characters other than "__proto__",
      each listed once in the key order. */
  lemma {:induction false} TallyObjectKeys(ws: seq<string>)
    ensures var o := TallyObject(ws);
      && Distinct(o.order)
      && (forall w :: w in o.order <==> w in o.props)
      && (forall w :: w in o.props <==> w in ws && |w| > 4 && w != "__proto__")
    decreases |ws|
  {
    if |ws| > 0 {
      var n := |ws| - 1;
      var w := ws[n];
      assert ws == ws[..n] + [w];
      TallyObjectKeys(ws[..n]);
      var o := TallyObject(ws[..n]);
      if |w| > 4 && w != "__proto__" && w !in o.props {
        DistinctConcat(o.order, [w]);
      }
    }
  }

  /** Each own property holds the token's number of occurrences, except "constructor", which
      holds a string. */
  lemma {:induction false} TallyObjectValues(ws: seq<string>)
    ensures var o := TallyObject(ws);
      forall w :: w in o.props ==> o.props[w] == (if w in InheritedNames then NonNumber else Count(Occurrences(ws, w)))
    decreases |ws|
  {
    if |ws| > 0 {
      var n := |ws| - 1;
      TallyObjectValues(ws[..n]);
      TallyObjectKeys(ws[..n]);
      OccurrencesPositive(ws[..n], ws[n]);
    }
  }

  /** The `forEach` over the tokens, `wordCounts[word] = (wordCounts[word] || 0) + 1` on a plain
      object. */
  method CountWords(words: seq<string>) returns (wordCounts: CountObject)
    ensures wordCounts == TallyObject(words)
  {
    wordCounts := CountObject(map[], []);
    var i := 0;
    while i < |words|
      invariant 0 <= i <= |words|
      invariant wordCounts == TallyObject(words[..i])
    {
      var word := words[i];
      assert words[..i + 1][..i] == words[..i];
      if |word| > 4 {
        wordCounts := Assign(wordCounts, word, Incremented(Read(wordCounts, word)));
      }
      i := i + 1;
    }
    assert words[..i] == words;
  }

  /** `count > 3` is true only of a number above three; a string compares as NaN. */
  predicate Exceeds(v: CountValue) {
    v.Count? && v.n > 3
  }

  /** The keys, in the order given, whose property value exceeds three. */
  function ObjectRepeated(keys: seq<string>, props: map<string, CountValue>): seq<string> {
    if |keys| == 0 then []
    else
      var n := |keys| - 1;
      ObjectRepeated(keys[..n], props) + (if keys[n] in props && Exceeds(props[keys[n]]) then [keys[n]] else [])
  }

  /** The repetition issues for the keys whose value exceeds three, in order. */
  function ObjectIssues(keys: seq<string>, props: map<string, CountValue>): seq<Issue> {
    if |keys| == 0 then []
    else
      var n := |keys| - 1;
      var k := keys[n];
      ObjectIssues(keys[..n], props) + (if k in props && Exceeds(props[k]) then [RepetitionIssue(k, props[k].n)] else [])
  }

  /** The reported keys are the listed keys whose value exceeds three, each as often as among
      the keys. */
  lemma {:induction false} ObjectRepeatedKeys(keys: seq<string>, props: map<string, CountValue>)
    ensures forall w :: w in ObjectRepeated(keys, props) <==> w in keys && w in props && Exceeds(props[w])
    ensures Distinct(keys) ==> Distinct(ObjectRepeated(keys, props))
    decreases |keys|
  {
    if |keys| > 0 {
      var n := |keys| - 1;
      var k := keys[n];
      assert keys == keys[..n] + [k];
      ObjectRepeatedKeys(keys[..n], props);
      if Distinct(keys) {
        assert forall j :: 0 <= j < n ==> keys[..n][j] != k;
        DistinctConcat(ObjectRepeated(keys[..n], props), if k in props && Exceeds(props[k]) then [k] else []);
      }
    }
  }

  /** One issue per reported key, in key order, carrying the key's count. */
  lemma {:induction false} ObjectIssuePerKey(keys: seq<string>, props: map<string, CountValue>)
    ensures var r := ObjectRepeated(keys, props);
      var issues := ObjectIssues(keys, props);
      && |issues| == |r|
      && forall i :: 0 <= i < |r| ==> r[i] in props && Exceeds(props[r[i]]) && issues[i] == RepetitionIssue(r[i], props[r[i]].n)
    decreases |keys|
  {
    if |keys| > 0 {
      ObjectIssuePerKey(keys[..|keys| - 1], props);
    }
  }

  lemma ObjectIssuesStep(keys: seq<string>, j: nat, props: map<string, CountValue>)
    requires j < |keys|
    ensures var k := keys[j];
      ObjectIssues(keys[..j + 1], props) == ObjectIssues(keys[..j], props)
        + (if k in props && Exceeds(props[k]) then [RepetitionIssue(k, props[k].n)] else [])
  {
    assert keys[..j + 1][..j] == keys[..j];
  }

  /** The `Object.entries` pass: one issue for each entry whose count exceeds three. Every
      listed key is an own property, so the membership test only keeps the step total. */
  method ReportRepeats(wordCounts: CountObject) returns (issues: seq<Issue>)
    ensures issues == ObjectIssues(OwnKeys(wordCounts.order), wordCounts.props)
  {
    var entries := OwnKeys(wordCounts.order);
    issues := [];
    var j := 0;
    while j < |entries|
      invariant 0 <= j <= |entries|
      invariant issues == ObjectIssues(entries[..j], wordCounts.props)
    {
      var word := entries[j];
      ObjectIssuesStep(entries, j, wordCounts.props);
      if word in wordCounts.props && Exceeds(wordCounts.props[word]) {
        issues := issues + [RepetitionIssue(word, wordCounts.props[word].n)];
      }
      j := j + 1;
    }
    assert entries[..j] == entries;
  }

  /** As written, the repetition issues name each lower-cased token longer than four characters
      that occurs more than three times, except the inherited names "constructor" and
      "__proto__", each exactly once, with its number of occurrences. */
  lemma RepetitionReportAsWritten(text: string)
    ensures var words := SplitWs(Lower(text));
      var o := TallyObject(words);
      var keys := OwnKeys(o.order);
      var r := ObjectRepeated(keys, o.props);
      var issues := ObjectIssues(keys, o.props);
      && Distinct(r)
      && (forall w :: w in r <==> |w| > 4 && Occurrences(words, w) > 3 && w !in InheritedNames)
      && |issues| == |r|
      && (forall i :: 0 <= i < |r| ==> issues[i] == RepetitionIssue(r[i], Occurrences(words, r[i])))
  {
    var words := SplitWs(Lower(text));
    ReportedWords(words);
    ReportedCounts(words);
  }

  /** The reported words, over any token list. */
  lemma ReportedWords(ws: seq<string>)
    ensures var o := TallyObject(ws);
      var r := ObjectRepeated(OwnKeys(o.order), o.props);
      && Distinct(r)
      && (forall w :: w in r <==> |w| > 4 && Occurrences(ws, w) > 3 && w !in InheritedNames)
  {
    var o := TallyObject(ws);
    var keys := OwnKeys(o.order);
    TallyObjectKeys(ws);
    TallyObjectValues(ws);
    OwnKeysDistinct(o.order);
    ObjectRepeatedKeys(keys, o.props);
    forall w | |w| > 4 && Occurrences(ws, w) > 3 && w !in InheritedNames
      ensures w in keys
    {
      OccurrencesPositive(ws, w);
    }
  }

  /** The reported counts, over any token list. */
  lemma ReportedCounts(ws: seq<string>)
    ensures var o := TallyObject(ws);
      var r := ObjectRepeated(OwnKeys(o.order), o.props);
      var issues := ObjectIssues(OwnKeys(o.order), o.props);
      && |issues| == |r|
      && (forall i :: 0 <= i < |r| ==> issues[i] == RepetitionIssue(r[i], Occurrences(ws, r[i])))
  {
    var o := TallyObject(ws);
    TallyObjectValues(ws);
    ObjectIssuePerKey(OwnKeys(o.order), o.props);
  }

  /** The repetition check on a count object that inherits nothing (`Object.create(null)`):
      the behaviour intended. */
  method CheckGrammarCorrected(text: string) returns (issues: seq<Issue>)
    ensures var words := SplitWs(Lower(text));
      issues == PatternIssues(text) + RepetitionIssues(OwnKeys(FirstSeen(words)), words)
  {
    issues := ReportPatterns(text);
    var words := SplitWs(Lower(text));
    var wordCounts, order := CountWordsCorrected(words);
    var repeated := ReportRepeatsCorrected(words, wordCounts, order);
    issues := issues + repeated;
  }

  /** The `forEach` over the tokens on a prototype-less object: `wordCounts` as a map, and
      `order`, the order in which it gains its keys. */
  method CountWordsCorrected(words: seq<string>) returns (wordCounts: map<string, nat>, order: seq<string>)
    ensures wordCounts == Tally(words) && order == FirstSeen(words)
  {
    wordCounts := map[];
    order := [];
    var i := 0;
    while i < |words|
      invariant 0 <= i <= |words|
      invariant wordCounts == Tally(words[..i])
      invariant order == FirstSeen(words[..i])
    {
      var word := words[i];
      assert words[..i + 1][..i] == words[..i];
      TallyKeysFirstSeen(words[..i], word);
      if |word| > 4 {
        if word !in wordCounts {
          order := order + [word];
        }
        wordCounts := wordCounts[word := (if word in wordCounts then wordCounts[word] else 0) + 1];
      }
      i := i + 1;
    }
    assert words[..i] == words;
  }

  /** The `Object.entries` pass over the prototype-less counts. */
  method ReportRepeatsCorrected(words: seq<string>, wordCounts: map<string, nat>, order: seq<string>) returns (issues: seq<Issue>)
    requires wordCounts == Tally(words) && order == FirstSeen(words)
    ensures issues == RepetitionIssues(OwnKeys(order), words)
  {
    var entries := OwnKeys(order);
    issues := [];
    var j := 0;
    while j < |entries|
      invariant 0 <= j <= |entries|
      invariant issues == RepetitionIssues(entries[..j], words)
    {
      var word := entries[j];
      RepetitionIssuesStep(entries, j, words);
      EntryCount(words, j);
      if wordCounts[word] > 3 {
        issues := issues + [RepetitionIssue(word, wordCounts[word])];
      }
      j := j + 1;
    }
    assert entries[..j] == entries;
  }

  /** With the correction, the repetition issues name each lower-cased token longer than four
      characters that occurs more than three times, each exactly once, with its number of
      occurrences. */
  lemma RepetitionReport(text: string)
    ensures var words := SplitWs(Lower(text));
      var keys := OwnKeys(FirstSeen(words));
      var r := Repeated(keys, words);
      var issues := RepetitionIssues(keys, words);
      && Distinct(r)
      && (forall w :: w in r <==> |w| > 4 && Occurrences(words, w) > 3)
      && |issues| == |r|
      && (forall i :: 0 <= i < |r| ==> issues[i] == RepetitionIssue(r[i], Occurrences(words, r[i])))
  {
    var words := SplitWs(Lower(text));
    var keys := OwnKeys(FirstSeen(words));
    FirstSeenKeys(words);
    OwnKeysDistinct(FirstSeen(words));
    RepeatedKeys(keys, words);
    IssuePerRepeatedKey(keys, words);
    forall w | |w| > 4 && Occurrences(words, w) > 3
      ensures w in keys
    {
      OccurrencesPositive(words, w);
    }
  }

  /** A token longer than four characters written four times is counted four times and is the
      only key. */
  lemma FourCopies(w: string)
    requires |w| > 4
    ensures FirstSeen([w, w, w, w]) == [w]
    ensures Occurrences([w, w, w, w], w) == 4
  {
    var ws := [w, w, w, w];
    assert ws[..3] == [w, w, w] && ws[..3][..2] == [w, w] && ws[..3][..2][..1] == [w];
    assert [w][..0] == [];
    assert FirstSeen([w]) == [w];
    assert FirstSeen([w, w]) == [w];
    assert FirstSeen([w, w, w]) == [w];
    assert Occurrences([w], w) == 1;
    assert Occurrences([w, w], w) == 2;
    assert Occurrences([w, w, w], w) == 3;
  }

  /** Words without capitals joined by a space hold no capital either. */
  lemma {:induction false} NoUpperJoin(ws: seq<string>)
    requires forall k :: 0 <= k < |ws| ==> NoUpper(ws[k])
    ensures NoUpper(Join(ws, " "))
    decreases |ws|
  {
    if |ws| > 1 {
      NoUpperJoin(ws[1..]);
      var rest := Join(ws[1..], " ");
      assert Join(ws, " ") == ws[0] + " " + rest;
      assert NoUpper(ws[0]);
    }
  }

  lemma SingleNamedKey(w: string)
    requires !IsArrayIndex(w)
    ensures OwnKeys([w]) == [w]
  {
    assert [w][1..] == [];
    assert IndexKeys([w]) == [] && NamedKeys([w]) == [w];
  }

  lemma InheritedNameFacts(w: string)
    requires w in InheritedNames
    ensures NoUpper(w) && |w| > 4 && NoDelim(Whitespace, w) && !IsArrayIndex(w)
  {
    assert !IsDigit(w[0]);
  }

  /** An inherited name written four times ("constructor constructor constructor constructor")
      is reported once by the corrected check and not at all by the code as written. */
  lemma InheritedNeverReported(w: string)
    requires w in InheritedNames
    ensures var words := SplitWs(Lower(Join([w, w, w, w], " ")));
      var o := TallyObject(words);
      && RepetitionIssues(OwnKeys(FirstSeen(words)), words) == [RepetitionIssue(w, 4)]
      && ObjectIssues(OwnKeys(o.order), o.props) == []
  {
    var ws := [w, w, w, w];
    InheritedNameFacts(w);
    NoUpperJoin(ws);
    LowerIdentity(Join(ws, " "));
    SplitWsJoin(ws);
    FourCopies(w);
    SingleNamedKey(w);
    var one: seq<string> := [w];
    assert one[..0] == [];
    assert RepetitionIssues(one, ws) == [RepetitionIssue(w, 4)];
    InheritedSkipped(ws);
  }

  /** Tokens that are all inherited names give no repetition issue as written. */
  lemma InheritedSkipped(ws: seq<string>)
    requires forall k :: 0 <= k < |ws| ==> ws[k] in InheritedNames
    ensures var o := TallyObject(ws);
      ObjectIssues(OwnKeys(o.order), o.props) == []
  {
    ReportedWords(ws);
    ReportedCounts(ws);
    var o := TallyObject(ws);
    var r := ObjectRepeated(OwnKeys(o.order), o.props);
    if |r| > 0 {
      assert r[0] in r;
      OccurrencesPositive(ws, r[0]);
      assert false;
    }
  }

  /** When no token is an inherited name, the code as written and the corrected check report
      the same issues. */
  lemma AsWrittenMatchesCorrected(text: string)
    requires forall k :: 0 <= k < |SplitWs(Lower(text))| ==> SplitWs(Lower(text))[k] !in InheritedNames
    ensures var words := SplitWs(Lower(text));
      var o := TallyObject(words);
      ObjectIssues(OwnKeys(o.order), o.props) == RepetitionIssues(OwnKeys(FirstSeen(words)), words)
  {
    var words := SplitWs(Lower(text));
    var o := TallyObject(words);
    TallyObjectOrder(words);
    TallyObjectValues(words);
    TallyObjectKeys(words);
    OwnKeysDistinct(o.order);
    ObjectIssuesAgree(OwnKeys(o.order), o.props, words);
  }

  /** Without "__proto__" among the tokens, the object gains its keys in first-seen order. */
  lemma {:induction false} TallyObjectOrder(ws: seq<string>)
    requires forall k :: 0 <= k < |ws| ==> ws[k] != "__proto__"
    ensures TallyObject(ws).order == FirstSeen(ws)
    decreases |ws|
  {
    if |ws| > 0 {
      var n := |ws| - 1;
      TallyObjectOrder(ws[..n]);
      TallyObjectKeys(ws[..n]);
      FirstSeenKeys(ws[..n]);
    }
  }

  /** Keys whose values are their plain counts give the same issues either way. */
  lemma {:induction false} ObjectIssuesAgree(keys: seq<string>, props: map<string, CountValue>, words: seq<string>)
    requires forall k :: k in keys ==> k in props && props[k] == Count(Occurrences(words, k))
    ensures ObjectIssues(keys, props) == RepetitionIssues(keys, words)
    decreases |keys|
  {
    if |keys| > 0 {
      var n := |keys| - 1;
      assert forall k :: k in keys[..n] ==> k in keys;
      ObjectIssuesAgree(keys[..n], props, words);
    }
  }

  // ---------------------------------------------------------------- analyzeTone, getToneSuggestions

  datatype PanelTone = PanelTone(primary: Tone, confidence: nat, mood: Mood, score: nat, suggestions: seq<string>)

  const PositiveWords: seq<string> := ["good", "great", "excellent", "wonderful", "amazing", "fantastic", "love", "best", "happy", "perfect"]
  const NegativeWords: seq<string> := ["bad", "terrible", "awful", "horrible", "worst", "hate", "poor", "disappointing", "sad", "unfortunate"]

  /** `wordCount / sentences.length`, Infinity when no sentence is left. */
  ghost predicate LongSentences(text: string) {
    |SplitSentences(text)| == 0 || |SplitWs(text)| as real / |SplitSentences(text)| as real > 20.0
  }

  lemma LongSentencesCount(text: string)
    ensures LongSentences(text) <==> |SplitWs(text)| > 20 * |SplitSentences(text)|
  {
    if |SplitSentences(text)| > 0 {
      RatioCompare(|SplitWs(text)|, |SplitSentences(text)|, 20);
    }
  }

  /** The two word-length thresholds, without dividing. */
  lemma WordLengthCount(text: string)
    ensures AvgWordLength(text) > 6.0 <==> NonWsCount(text) > 6 * |SplitWs(text)|
    ensures AvgWordLength(text) < 4.5 <==> 2 * NonWsCount(text) < 9 * |SplitWs(text)|
  {
    RatioCompare(NonWsCount(text), |SplitWs(text)|, 6);
    RatioCompareFraction(NonWsCount(text), |SplitWs(text)|, 9, 2);
    assert 9.0 / 2.0 == 4.5;
  }

  /** Formal for long words in long sentences; otherwise casual for any `!` or words shorter
      than 4.5 characters on average; otherwise neutral. */
  function ToneOf(text: string): (t: Tone)
    ensures t == Formal <==> AvgWordLength(text) > 6.0 && LongSentences(text)
    ensures t == Casual <==>
      !(AvgWordLength(text) > 6.0 && LongSentences(text))
      && (Contains(text, "!") || AvgWordLength(text) < 4.5)
  {
    var words := |SplitWs(text)|;
    var letters := NonWsCount(text);
    var sentences := |SplitSentences(text)|;
    WordLengthCount(text);
    LongSentencesCount(text);
    if letters > 6 * words && words > 20 * sentences then Formal
    else if Contains(text, "!") || 2 * letters < 9 * words then Casual
    else Neutral
  }

  /** The mood by the number of distinct list words present in the lower-cased text. */
  function MoodOf(text: string): (m: Mood)
    ensures var pos := |IncludedSet(Lower(text), PositiveWords)|;
      var neg := |IncludedSet(Lower(text), NegativeWords)|;
      && (m == Positive <==> pos > neg)
      && (m == Negative <==> neg > pos)
  {
    var lower := Lower(text);
    CountIncludedDistinct(lower, PositiveWords);
    CountIncludedDistinct(lower, NegativeWords);
    var pos := CountIncluded(lower, PositiveWords);
    var neg := CountIncluded(lower, NegativeWords);
    if pos > neg then Positive else if neg > pos then Negative else Balanced
  }

  /** The sentiment score in tenths: 0.5 raised by a tenth per positive word up to 0.9, or
      lowered by a tenth per negative word down to 0.1. It lies in [1, 9] and is above, at or
      below 5 exactly as the mood is positive, balanced or negative. */
  function SentimentScore(text: string): (score: nat)
    ensures 1 <= score <= 9
    ensures score > 5 <==> MoodOf(text) == Positive
    ensures score < 5 <==> MoodOf(text) == Negative
    ensures var pos := |IncludedSet(Lower(text), PositiveWords)|;
      var neg := |IncludedSet(Lower(text), NegativeWords)|;
      && (MoodOf(text) == Positive ==> score == if 5 + pos < 9 then 5 + pos else 9)
      && (MoodOf(text) == Negative ==> score == if neg < 4 then 5 - neg else 1)
  {
    var lower := Lower(text);
    CountIncludedDistinct(lower, PositiveWords);
    CountIncludedDistinct(lower, NegativeWords);
    var pos := CountIncluded(lower, PositiveWords);
    var neg := CountIncluded(lower, NegativeWords);
    if pos > neg then (if 5 + pos < 9 then 5 + pos else 9)
    else if neg > pos then (if neg < 4 then 5 - neg else 1)
    else 5
  }

  const PersonalTouches := "Consider adding personal touches for better engagement"
  const ProfessionalClear := "Your writing is professional and clear"
  const InformalGreat := "Great for informal communication"
  const MoreFormal := "For professional contexts, consider a more formal tone"
  const BalanceNegative := "Consider balancing negative points with positive aspects"
  const PositiveEngaging := "Your positive tone creates an engaging message"

  function ToneAdvice(t: Tone): (advice: seq<string>)
    ensures |advice| == if t == Neutral then 0 else 2
  {
    match t
    case Formal => [PersonalTouches, ProfessionalClear]
    case Casual => [InformalGreat, MoreFormal]
    case Neutral => []
  }

  function MoodAdvice(m: Mood): (advice: seq<string>)
    ensures |advice| == if m == Balanced then 0 else 1
  {
    match m
    case Negative => [BalanceNegative]
    case Positive => [PositiveEngaging]
    case Balanced => []
  }

  /** Two pieces of advice for a formal or casual tone, then one for a positive or negative
      mood: at most three, none for a neutral, balanced text. */
  method GetToneSuggestions(tone: Tone, mood: Mood) returns (suggestions: seq<string>)
    ensures suggestions == ToneAdvice(tone) + MoodAdvice(mood)
    ensures |suggestions| <= 3
    ensures |suggestions| == 0 <==> tone == Neutral && mood == Balanced
  {
    suggestions := [];
    if tone == Formal {
      suggestions := suggestions + [PersonalTouches];
      suggestions := suggestions + [ProfessionalClear];
    } else if tone == Casual {
      suggestions := suggestions + [InformalGreat];
      suggestions := suggestions + [MoreFormal];
    }
    if mood == Negative {
      suggestions := suggestions + [BalanceNegative];
    } else if mood == Positive {
      suggestions := suggestions + [PositiveEngaging];
    }
  }

  /** Tone with confidence 0.85, 0.80 or 0.75, mood and score, and the advice for both. */
  method AnalyzeTone(text: string) returns (r: PanelTone)
    ensures r.primary == ToneOf(text) && r.mood == MoodOf(text) && r.score == SentimentScore(text)
    ensures r.confidence == (match r.primary case Formal => 85 case Casual => 80 case Neutral => 75)
    ensures r.suggestions == ToneAdvice(r.primary) + MoodAdvice(r.mood)
  {
    var primary := ToneOf(text);
    var confidence := match primary case Formal => 85 case Casual => 80 case Neutral => 75;
    var mood := MoodOf(text);
    var suggestions := GetToneSuggestions(primary, mood);
    r := PanelTone(primary, confidence, mood, SentimentScore(text), suggestions);
  }

  // ---------------------------------------------------------------- summarizeText

  datatype PanelSummary = PanelSummary(brief: string, detailed: string, keyPoints: seq<string>)

  const ImportantWords: seq<string> := ["important", "key", "main", "essential", "critical", "significant", "must", "need", "should"]

  /** The lower-cased sentence contains one of the importance words, anywhere. */
  predicate IsKeySentence(s: string) {
    exists w :: w in ImportantWords && Contains(Lower(s), w)
  }

  /** The key sentences, in order. */
  function KeySentences(ss: seq<string>): (r: seq<string>)
    ensures |r| <= |ss|
    ensures forall s :: s in r <==> s in ss && IsKeySentence(s)
  {
    if |ss| == 0 then []
    else
      assert ss == [ss[0]] + ss[1..];
      (if IsKeySentence(ss[0]) then [ss[0]] else []) + KeySentences(ss[1..])
  }

  /** `Math.max(2, Math.ceil(n / 3))`. */
  function DetailedCount(n: nat): (k: nat)
    ensures k >= 2 && 3 * k >= n
    ensures n > 2 ==> k <= n
  {
    if (n + 2) / 3 > 2 then (n + 2) / 3 else 2
  }

  /** Up to two sentences: the text itself, three times over. Otherwise the first and last
      sentences, the first third (at least two), and as key points up to three sentences holding
      an importance word, or the first three sentences when none does. */
  method SummarizeText(text: string) returns (r: PanelSummary)
    ensures |SplitSentences(text)| <= 2 ==> r == PanelSummary(text, text, [text])
    ensures |SplitSentences(text)| > 2 ==> r == Summarized(SplitSentences(text))
    ensures 1 <= |r.keyPoints| <= 3
  {
    var sentences := SplitSentences(text);
    var n := |sentences|;
    if n <= 2 {
      return PanelSummary(text, text, [text]);
    }
    r := SummarizeSentences(sentences);
  }

  /** The summary of three or more sentences: the first and last sentences, the first third
      (at least two), and as key points up to three sentences holding an importance word, or the
      first three sentences when none does; every sentence trimmed. */
  ghost function Summarized(ss: seq<string>): PanelSummary
    requires |ss| > 2
  {
    var n := |ss|;
    PanelSummary(
      Trim(ss[0]) + ". " + Trim(ss[n - 1]) + ".",
      Join(MapTrim(ss[..DetailedCount(n)]), ". ") + ".",
      MapTrim(Take(if |KeySentences(ss)| > 0 then KeySentences(ss) else ss, 3)))
  }

  method SummarizeSentences(sentences: seq<string>) returns (r: PanelSummary)
    requires |sentences| > 2
    ensures r == Summarized(sentences)
    ensures 1 <= |r.keyPoints| <= 3
  {
    var n := |sentences|;
    var brief := Trim(sentences[0]) + ". " + Trim(sentences[n - 1]) + ".";
    var detailed := Join(MapTrim(sentences[..DetailedCount(n)]), ". ") + ".";
    var keyPoints := KeyPoints(sentences);
    r := PanelSummary(brief, detailed, keyPoints);
  }

  /** The key points: sentences holding an importance word, else the first ones, at most three. */
  method KeyPoints(sentences: seq<string>) returns (keyPoints: seq<string>)
    requires |sentences| > 0
    ensures keyPoints == MapTrim(Take(if |KeySentences(sentences)| > 0 then KeySentences(sentences) else sentences, 3))
    ensures 1 <= |keyPoints| <= 3
  {
    keyPoints := MapTrim(Take(KeySentences(sentences), 3));
    if |keyPoints| == 0 {
      keyPoints := keyPoints + MapTrim(Take(sentences, 3));
    }
  }

  lemma JoinTwo(a: string, b: string, sep: string)
    ensures Join([a, b], sep) == a + sep + b
  {
    assert [a, b][1..] == [b];
  }

  /** Read back as sentences, the brief summary of three or more sentences is the first and the
      last sentence, and the detailed one the first `max(2, ceil(n/3))` sentences, all trimmed. */
  lemma SummaryResplits(text: string)
    requires |SplitSentences(text)| > 2
    ensures var ss := SplitSentences(text);
      var n := |ss|;
      && MapTrim(SplitSentences(Summarized(ss).brief)) == [Trim(ss[0]), Trim(ss[n - 1])]
      && MapTrim(SplitSentences(Summarized(ss).detailed)) == MapTrim(ss[..DetailedCount(n)])
  {
    var ss := SplitSentences(text);
    var n := |ss|;
    TrimmedSentenceClean(ss[0]);
    TrimmedSentenceClean(ss[n - 1]);
    ResplitSentences([Trim(ss[0]), Trim(ss[n - 1])]);
    JoinTwo(Trim(ss[0]), Trim(ss[n - 1]), ". ");
    var firsts := MapTrim(ss[..DetailedCount(n)]);
    forall k | 0 <= k < |firsts|
      ensures IsCleanSentence(firsts[k])
    {
      TrimmedSentenceClean(ss[k]);
    }
    ResplitSentences(firsts);
  }

  // ---------------------------------------------------------------- rephraseText

  const FormalRules: seq<Rule> := [
    Rule(["get"], "obtain"), Rule(["got"], "obtained"), Rule(["very"], "extremely"),
    Rule(["really"], "genuinely"), Rule(["kinda"], "somewhat"), Rule(["a lot of"], "numerous"),
    Rule(["thing"], "matter"), Rule(["stuff"], "material")]

  const CreativeRules: seq<Rule> := [
    Rule(["said"], "articulated"), Rule(["show"], "demonstrate"), Rule(["good"], "remarkable"),
    Rule(["bad"], "unfortunate"), Rule(["make"], "create"), Rule(["think"], "believe"),
    Rule(["important"], "crucial")]

  /** The first fifteen whitespace fields of the trimmed sentence, rejoined by single spaces. */
  function Shortened(s: string): string {
    Join(Take(SplitWs(Trim(s)), 15), " ")
  }

  function ShortenedAll(ss: seq<string>): (r: seq<string>)
    ensures |r| == |ss| && forall k :: 0 <= k < |ss| ==> r[k] == Shortened(ss[k])
  {
    seq(|ss|, k requires 0 <= k < |ss| => Shortened(ss[k]))
  }

  /** Two chains of whole-word replacements, and the sentences cut to fifteen words. */
  function RephraseText(text: string): Rephrasing {
    Rephrasing(
      ApplyRules(text, FormalRules),
      Join(ShortenedAll(SplitSentences(text)), ". ") + ".",
      ApplyRules(text, CreativeRules))
  }

  /** A sentence of the text, cut to fifteen words, is a clean sentence whose words are the
      first fifteen of the trimmed sentence. */
  lemma ShortenedSentence(s: string)
    requires |Trim(s)| > 0 && NoDelim(Terminators, s)
    ensures IsCleanSentence(Shortened(s))
    ensures SplitWs(Shortened(s)) == Take(SplitWs(Trim(s)), 15)
  {
    var t := Trim(s);
    TrimmedSentenceClean(s);
    SplitWsOfTrimmed(t);
    SplitWsNoTerminators(t);
    var ws := Take(SplitWs(t), 15);
    assert AreWords(ws);
    JoinStartsWith(ws, " ");
    JoinedWordsTrimmed(ws);
    JoinNoTerminators(ws, " ");
    SplitWsJoin(ws);
  }

  /** The simple version read back as sentences: one per sentence of the text, in order, each
      holding the first fifteen words of that sentence, at most fifteen. */
  lemma SimpleResplits(text: string)
    ensures var ss := SplitSentences(text);
      var out := SplitSentences(RephraseText(text).simple);
      && |out| == |ss|
      && MapTrim(out) == ShortenedAll(ss)
      && forall k :: 0 <= k < |ss| ==> SplitWs(Trim(out[k])) == Take(SplitWs(Trim(ss[k])), 15) && |SplitWs(Trim(out[k]))| <= 15
  {
    var ss := SplitSentences(text);
    var segs := ShortenedAll(ss);
    forall k | 0 <= k < |ss|
      ensures IsCleanSentence(segs[k]) && SplitWs(segs[k]) == Take(SplitWs(Trim(ss[k])), 15)
    {
      ShortenedSentence(ss[k]);
    }
    ResplitSentences(segs);
  }

  /** The last two formal rules replace single words. */
  lemma FormalWords()
    ensures WordRules(FormalRules[6..])
  {
    OneWordRule("thing", "matter");
    OneWordRule("stuff", "material");
  }

  lemma FormalFreshLow()
    ensures forall j :: 0 <= j < 4 ==> FreshAt(FormalRules, j)
  {
    LowerIdentity("obtain"); LowerIdentity("obtained"); LowerIdentity("extremely"); LowerIdentity("genuinely");
  }

  lemma FormalFreshHigh()
    ensures forall j :: 4 <= j < 8 ==> FreshAt(FormalRules, j)
  {
    LowerIdentity("somewhat"); LowerIdentity("numerous"); LowerIdentity("matter"); LowerIdentity("material");
  }

  /** No formal replacement is a word or phrase that the same or an earlier rule looks for. */
  lemma FormalNoRewriteBack()
    ensures NoRewriteBack(FormalRules)
  {
    FormalFreshLow();
    FormalFreshHigh();
    AllFresh(FormalRules);
  }

  lemma CreativeWordsLow()
    ensures forall i :: 0 <= i < 4 ==> WordRule(CreativeRules[i])
  {
    OneWordRule("said", "articulated");
    OneWordRule("show", "demonstrate");
    OneWordRule("good", "remarkable");
    OneWordRule("bad", "unfortunate");
  }

  lemma CreativeWordsHigh()
    ensures forall i :: 4 <= i < 7 ==> WordRule(CreativeRules[i])
  {
    OneWordRule("make", "create");
    OneWordRule("think", "believe");
    OneWordRule("important", "crucial");
  }

  /** Every creative rule replaces a single word by a single word. */
  lemma CreativeWords()
    ensures WordRules(CreativeRules)
  {
    CreativeWordsLow();
    CreativeWordsHigh();
  }

  lemma CreativeFreshLow()
    ensures forall j :: 0 <= j < 4 ==> FreshAt(CreativeRules, j)
  {
    LowerIdentity("articulated"); LowerIdentity("demonstrate"); LowerIdentity("remarkable"); LowerIdentity("unfortunate");
  }

  lemma CreativeFreshHigh()
    ensures forall j :: 4 <= j < 7 ==> FreshAt(CreativeRules, j)
  {
    LowerIdentity("create"); LowerIdentity("believe"); LowerIdentity("crucial");
  }

  /** No creative replacement is a word that the same or an earlier rule looks for. */
  lemma CreativeNoRewriteBack()
    ensures NoRewriteBack(CreativeRules)
  {
    CreativeFreshLow();
    CreativeFreshHigh();
    AllFresh(CreativeRules);
  }

  /** The creative version holds none of the words it replaces, and the formal one neither
      "thing" nor "stuff", in any letter case. */
  lemma RephraseRemovesWords(text: string)
    ensures forall i, q :: 0 <= i < |CreativeRules| && q in CreativeRules[i].alts ==> !HasWord(RephraseText(text).creative, [q])
    ensures !HasWord(RephraseText(text).formal, ["thing"]) && !HasWord(RephraseText(text).formal, ["stuff"])
  {
    CreativeWords();
    CreativeNoRewriteBack();
    ChainEliminatesAll(text, CreativeRules);
    FormalWords();
    FormalNoRewriteBack();
    assert FormalRules[6..][0] == FormalRules[6] && FormalRules[6..][1] == FormalRules[7];
    ChainEliminates(text, FormalRules, 6, "thing");
    ChainEliminates(text, FormalRules, 7, "stuff");
  }

  /** A text holding none of a table's words or phrases is returned unchanged by that chain. */
  lemma RephraseKeepsPlainText(text: string)
    ensures FindsNone(text, FormalRules) ==> RephraseText(text).formal == text
    ensures FindsNone(text, CreativeRules) ==> RephraseText(text).creative == text
  {
    if FindsNone(text, FormalRules) {
      ChainKeepsPlainText(text, FormalRules);
    }
    if FindsNone(text, CreativeRules) {
      ChainKeepsPlainText(text, CreativeRules);
    }
  }

  // ---------------------------------------------------------------- expandText

  datatype PanelRewrite = PanelRewrite(kind: RewriteKind, result: string, original: string)

  const Furthermore := " Furthermore, this concept is particularly significant as it demonstrates fundamental principles that are essential to understanding the broader context. "
  const ByExamining := "By examining these elements more closely, we can gain valuable insights that enhance our comprehension of the subject matter."
  const Expansion := Furthermore + ByExamining

  /** More than 50 whitespace fields: the first five sentences as bullet lines. Otherwise the
      text followed by two fixed sentences. The original is kept either way. */
  function ExpandText(text: string): (r: PanelRewrite)
    ensures r.original == text
    ensures r.kind == Condense <==> |SplitWs(text)| > 50
    ensures r.kind == Expand ==> |r.result| == |text| + |Expansion| && r.result[..|text|] == text && r.result[|text|..] == Expansion
  {
    if |SplitWs(text)| > 50 then PanelRewrite(Condense, Join(PrefixedLines(Bullet, Take(SplitSentences(text), 5)), "\n"), text)
    else PanelRewrite(Expand, text + Expansion, text)
  }

  /** For a text without line breaks, the condensed form has one bullet line per sentence, at
      most five. */
  lemma CondensedBullets(text: string)
    requires |SplitWs(text)| > 50 && '\n' !in text && |SplitSentences(text)| > 0
    ensures var lines := SplitAt(ExpandText(text).result, '\n');
      var n := |SplitSentences(text)|;
      && |lines| == (if n < 5 then n else 5)
      && forall i :: 0 <= i < |lines| ==> lines[i] == Bullet + Trim(SplitSentences(text)[i])
  {
    var ss := Take(SplitSentences(text), 5);
    SentencesKeepAbsent(text, '\n');
    PrefixedFree(Bullet, ss);
    SplitAtJoin(PrefixedLines(Bullet, ss), '\n');
  }

  // ---------------------------------------------------------------- escapeQuotes

  /** `text.replace(/c/g, r)` for a one-character pattern: every `c` becomes `r`. */
  function ReplaceChar(text: string, c: char, r: string): string
    decreases |text|
  {
    if |text| == 0 then ""
    else (if text[0] == c then r else [text[0]]) + ReplaceChar(text[1..], c, r)
  }

  /** The three passes of `escapeQuotes`: `'` to `\'`, then `"` to `\"`, then a line feed to
      `\n`. */
  function EscapeQuotes(text: string): string {
    ReplaceChar(ReplaceChar(ReplaceChar(text, '\'', "\\'"), '"', "\\\""), '\n', "\\n")
  }

  /** What one character becomes in the escaped text. */
  function EscapeChar(c: char): string {
    if c == '\'' then "\\'" else if c == '"' then "\\\"" else if c == '\n' then "\\n" else [c]
  }

  /** The escaped text built character by character. */
  function EscapeEach(text: string): string
    decreases |text|
  {
    if |text| == 0 then "" else EscapeChar(text[0]) + EscapeEach(text[1..])
  }

  lemma {:induction false} ReplaceCharAppend(a: string, b: string, c: char, r: string)
    ensures ReplaceChar(a + b, c, r) == ReplaceChar(a, c, r) + ReplaceChar(b, c, r)
    decreases |a|
  {
    if |a| > 0 {
      assert (a + b)[0] == a[0];
      assert (a + b)[1..] == a[1..] + b;
      ReplaceCharAppend(a[1..], b, c, r);
      assert ReplaceChar(a, c, r) == (if a[0] == c then r else [a[0]]) + ReplaceChar(a[1..], c, r);
    } else {
      assert a + b == b;
    }
  }

  lemma ReplaceCharAbsent(a: string, c: char, r: string)
    requires c !in a
    ensures ReplaceChar(a, c, r) == a
    decreases |a|
  {
    if |a| > 0 {
      ReplaceCharAbsent(a[1..], c, r);
    }
  }

  /** The three passes of one character. */
  lemma EscapeOneChar(c: char)
    ensures ReplaceChar(ReplaceChar(ReplaceChar([c], '\'', "\\'"), '"', "\\\""), '\n', "\\n") == EscapeChar(c)
  {
    assert [c][1..] == "";
    if c == '\'' {
      ReplaceCharAbsent("\\'", '"', "\\\"");
      ReplaceCharAbsent("\\'", '\n', "\\n");
    } else if c == '"' {
      ReplaceCharAbsent("\\\"", '\n', "\\n");
    }
  }

  /** The passes one after the other give the same text as escaping each character once: no
      pass touches what an earlier one inserted. */
  lemma {:induction false} EscapeQuotesPerChar(text: string)
    ensures EscapeQuotes(text) == EscapeEach(text)
    decreases |text|
  {
    if |text| > 0 {
      var c, rest := text[0], text[1..];
      assert text == [c] + rest;
      var p1 := ReplaceChar([c], '\'', "\\'");
      var p2 := ReplaceChar(p1, '"', "\\\"");
      ReplaceCharAppend([c], rest, '\'', "\\'");
      ReplaceCharAppend(p1, ReplaceChar(rest, '\'', "\\'"), '"', "\\\"");
      ReplaceCharAppend(p2, ReplaceChar(ReplaceChar(rest, '\'', "\\'"), '"', "\\\""), '\n', "\\n");
      EscapeOneChar(c);
      EscapeQuotesPerChar(rest);
    }
  }

  /** Every quote in the output follows a backslash, and no line feed is left. */
  lemma {:induction false} EscapedShape(text: string)
    ensures var e := EscapeEach(text);
      && '\n' !in e
      && forall k :: 0 <= k < |e| && (e[k] == '\'' || e[k] == '"') ==> k > 0 && e[k - 1] == '\\'
    decreases |text|
  {
    if |text| > 0 {
      EscapedShape(text[1..]);
      var h, t := EscapeChar(text[0]), EscapeEach(text[1..]);
      assert EscapeEach(text) == h + t;
      forall k | 0 <= k < |h + t| && ((h + t)[k] == '\'' || (h + t)[k] == '"')
        ensures k > 0 && (h + t)[k - 1] == '\\'
      {
        if k >= |h| {
          assert (h + t)[k] == t[k - |h|];
          if k - |h| > 0 {
            assert (h + t)[k - 1] == t[k - |h| - 1];
          }
        }
      }
    }
  }

  /** The escaped text has no line feed, and each quote in it is preceded by a backslash. */
  lemma EscapeQuotesShape(text: string)
    ensures var e := EscapeQuotes(text);
      && '\n' !in e
      && forall k :: 0 <= k < |e| && (e[k] == '\'' || e[k] == '"') ==> k > 0 && e[k - 1] == '\\'
  {
    EscapeQuotesPerChar(text);
    EscapedShape(text);
  }

  /** The character an escape sequence `\e` stands for inside a single-quoted string literal
      (section 12.9.4 of ECMA-262): the single escape characters, and any other character that
      is not a digit, `x`, `u` or a line terminator standing for itself. The rest is not
      modelled. */
  function EscapeValue(e: char): Option<char> {
    if e == 'n' then Some('\n')
    else if e == 'r' then Some('\r')
    else if e == 't' then Some('\t')
    else if e == 'b' then Some('\U{8}')
    else if e == 'f' then Some('\U{C}')
    else if e == 'v' then Some('\U{B}')
    else if IsDigit(e) || e == 'x' || e == 'u' || e == '\n' || e == '\r' || e == '\U{2028}' || e == '\U{2029}' then None
    else Some(e)
  }

  function Prepend(c: char, rest: Option<string>): Option<string> {
    match rest
    case None => None
    case Some(t) => Some([c] + t)
  }

  /** The value of `'body'` as a JavaScript string literal, or None when the body does not
      form one: an unescaped `'` ends the literal early, a raw line feed or carriage return is
      not allowed, and a trailing backslash escapes the closing quote. */
  function DecodeLiteral(body: string): Option<string>
    decreases |body|
  {
    if |body| == 0 then Some("")
    else if body[0] == '\\' then
      if |body| == 1 then None
      else
        match EscapeValue(body[1])
        case None => None
        case Some(c) => Prepend(c, DecodeLiteral(body[2..]))
    else if body[0] == '\'' || body[0] == '\n' || body[0] == '\r' then None
    else Prepend(body[0], DecodeLiteral(body[1..]))
  }

  /** A backslash followed by `n` in the text reaches the handler as a line feed, and a lone
      backslash or a carriage return breaks the literal. */
  lemma EscapeQuotesMisreads()
    ensures DecodeLiteral(EscapeQuotes("\\n")) == Some("\n")
    ensures DecodeLiteral(EscapeQuotes("\\")) == None
    ensures DecodeLiteral(EscapeQuotes("\r")) == None
  {
    EscapeQuotesPerChar("\\n");
    assert EscapeEach("\\n") == "\\n" by {
      assert "\\n"[1..] == "n" && "n"[1..] == "";
    }
    assert "\\n"[2..] == "" && "\\n"[1] == 'n';
    assert DecodeLiteral("\\n") == Prepend('\n', DecodeLiteral(""));
    assert ['\n'] + "" == "\n";
    EscapeQuotesPerChar("\\");
    assert EscapeEach("\\") == "\\" by {
      assert "\\"[1..] == "";
    }
    EscapeQuotesPerChar("\r");
    assert EscapeEach("\r") == "\r" by {
      assert "\r"[1..] == "";
    }
  }

  /** What one character becomes when escaped for a single-quoted literal: the backslash
      first, then both quotes, line feed and carriage return. */
  function EscapeJsChar(c: char): string {
    if c == '\\' then "\\\\"
    else if c == '\'' then "\\'"
    else if c == '"' then "\\\""
    else if c == '\n' then "\\n"
    else if c == '\r' then "\\r"
    else [c]
  }

  /** `escapeQuotes` with the backslash and the carriage return escaped as well. */
  function EscapeJs(text: string): string
    decreases |text|
  {
    if |text| == 0 then "" else EscapeJsChar(text[0]) + EscapeJs(text[1..])
  }

  lemma EscapeJsCharDecodes(c: char, rest: string)
    ensures DecodeLiteral(EscapeJsChar(c) + rest) == Prepend(c, DecodeLiteral(rest))
  {
    var e := EscapeJsChar(c);
    if |e| == 2 {
      assert (e + rest)[2..] == rest;
    } else {
      assert (e + rest)[1..] == rest;
    }
  }

  /** The literal written with the corrected escaping reads back as exactly the text. */
  lemma {:induction false} EscapeJsRoundTrip(text: string)
    ensures DecodeLiteral(EscapeJs(text)) == Some(text)
    decreases |text|
  {
    if |text| > 0 {
      EscapeJsRoundTrip(text[1..]);
      EscapeJsCharDecodes(text[0], EscapeJs(text[1..]));
      assert [text[0]] + text[1..] == text;
    }
  }
}
