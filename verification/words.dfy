/** Global, case-insensitive, whole-word replacement: `s.replace(/\b(a|b|…)\b/gi, rep)` and the
    matching test `/\b(a|b|…)\b/i.test(s)`, for lower-case ASCII alternatives.

    The regular-expression engine scans left to right: at each position it tries the alternatives
    in order; on a match it emits `rep` and resumes after the match, otherwise it copies one
    character. `\b` at a position compares the word-ness of the character before it (`prevWord`,
    false at the start of the string) with that of the character after it. */
module Words {
  import opened Text

  /** `\b` between a character whose word-ness is `prevWord` and the remainder `t`. */
  predicate Boundary(prevWord: bool, t: string) {
    prevWord != (|t| > 0 && IsWordChar(t[0]))
  }

  /** `\b p \b` matches at the start of `t`, letters compared case-insensitively. */
  predicate MatchesAt(prevWord: bool, t: string, p: string) {
    && 0 < |p| <= |t|
    && Boundary(prevWord, t)
    && Lower(t[..|p|]) == p
    && Boundary(IsWordChar(t[|p| - 1]), t[|p|..])
  }

  /** The first alternative of `(alts[0]|alts[1]|…)` that matches at the start of `t`. */
  function FirstAlt(prevWord: bool, t: string, alts: seq<string>): (k: Option<nat>)
    ensures k.Some? ==> k.value < |alts| && MatchesAt(prevWord, t, alts[k.value])
    ensures k.Some? ==> forall j :: 0 <= j < k.value ==> !MatchesAt(prevWord, t, alts[j])
    ensures k.None? <==> forall a :: a in alts ==> !MatchesAt(prevWord, t, a)
  {
    if |alts| == 0 then None
    else if MatchesAt(prevWord, t, alts[0]) then Some(0)
    else match FirstAlt(prevWord, t, alts[1..])
      case None => None
      case Some(k) => Some(k + 1)
  }

  function ReplaceScan(prevWord: bool, t: string, alts: seq<string>, rep: string): string
    decreases |t|
  {
    if |t| == 0 then ""
    else match FirstAlt(prevWord, t, alts)
      case Some(k) => rep + ReplaceScan(IsWordChar(t[|alts[k]| - 1]), t[|alts[k]|..], alts, rep)
      case None => [t[0]] + ReplaceScan(IsWordChar(t[0]), t[1..], alts, rep)
  }

  /** `s.replace(/\b(alts[0]|alts[1]|…)\b/gi, rep)`. */
  function ReplaceWords(s: string, alts: seq<string>, rep: string): string {
    ReplaceScan(false, s, alts, rep)
  }

  predicate OccursScan(prevWord: bool, t: string, alts: seq<string>)
    decreases |t|
  {
    |t| > 0 && (FirstAlt(prevWord, t, alts).Some? || OccursScan(IsWordChar(t[0]), t[1..], alts))
  }

  /** `/\b(alts[0]|alts[1]|…)\b/i.test(s)`: some alternative occurs in `s` as a whole word. */
  predicate HasWord(s: string, alts: seq<string>) {
    OccursScan(false, s, alts)
  }

  // ---------------------------------------------------------------- replacement changes text exactly when a word occurs

  lemma {:induction false} ScanUnchanged(prevWord: bool, t: string, alts: seq<string>, rep: string)
    requires !OccursScan(prevWord, t, alts)
    ensures ReplaceScan(prevWord, t, alts, rep) == t
    decreases |t|
  {
    if |t| > 0 {
      ScanUnchanged(IsWordChar(t[0]), t[1..], alts, rep);
      assert [t[0]] + t[1..] == t;
    }
  }

  predicate ShorterThanAll(rep: string, alts: seq<string>) {
    forall a :: a in alts ==> |rep| < |a|
  }

  lemma {:induction false} ScanShrinks(prevWord: bool, t: string, alts: seq<string>, rep: string)
    requires ShorterThanAll(rep, alts)
    ensures |ReplaceScan(prevWord, t, alts, rep)| <= |t|
    ensures OccursScan(prevWord, t, alts) ==> |ReplaceScan(prevWord, t, alts, rep)| < |t|
    decreases |t|
  {
    if |t| > 0 {
      match FirstAlt(prevWord, t, alts)
      case Some(k) =>
        ScanShrinks(IsWordChar(t[|alts[k]| - 1]), t[|alts[k]|..], alts, rep);
      case None =>
        ScanShrinks(IsWordChar(t[0]), t[1..], alts, rep);
    }
  }

  /** With a replacement shorter than every alternative (as in every table of the source),
      the replaced text differs from the original exactly when some alternative occurs. */
  lemma ReplaceChangesIffOccurs(s: string, alts: seq<string>, rep: string)
    requires ShorterThanAll(rep, alts)
    ensures ReplaceWords(s, alts, rep) != s <==> HasWord(s, alts)
  {
    if HasWord(s, alts) {
      ScanShrinks(false, s, alts, rep);
    } else {
      ScanUnchanged(false, s, alts, rep);
    }
  }

  // ---------------------------------------------------------------- word runs

  /** A non-empty run of `\w` characters. */
  predicate IsWord(w: string) {
    |w| > 0 && forall i :: 0 <= i < |w| ==> IsWordChar(w[i])
  }

  predicate AllWords(alts: seq<string>) {
    forall a :: a in alts ==> IsWord(a)
  }

  /** End of the run of word characters at the start of `t`. */
  function RunEnd(t: string): (k: nat)
    ensures k <= |t|
    ensures forall j :: 0 <= j < k ==> IsWordChar(t[j])
    ensures k < |t| ==> !IsWordChar(t[k])
  {
    if |t| == 0 || !IsWordChar(t[0]) then 0 else 1 + RunEnd(t[1..])
  }

  /** Inside a word nothing matches a word pattern, so the scan copies the rest of the run. */
  lemma {:induction false} ScanInsideRun(t: string, alts: seq<string>, rep: string, q: seq<string>)
    ensures ReplaceScan(true, t, alts, rep) == t[..RunEnd(t)] + ReplaceScan(true, t[RunEnd(t)..], alts, rep)
    ensures OccursScan(true, t, q) == OccursScan(true, t[RunEnd(t)..], q)
    decreases |t|
  {
    var k := RunEnd(t);
    if k > 0 {
      assert !Boundary(true, t);
      assert FirstAlt(true, t, alts).None?;
      assert FirstAlt(true, t, q).None?;
      ScanInsideRun(t[1..], alts, rep, q);
      assert RunEnd(t[1..]) == k - 1;
      TailSlices(t, k);
    }
  }

  /** A word pattern cannot match at a non-word character. */
  lemma NoMatchAtNonWord(prevWord: bool, t: string, alts: seq<string>)
    requires AllWords(alts) && |t| > 0 && !IsWordChar(t[0])
    ensures FirstAlt(prevWord, t, alts).None?
  {
    forall a | a in alts
      ensures !MatchesAt(prevWord, t, a)
    {
      if 0 < |a| <= |t| {
        assert Lower(t[..|a|])[0] == LowerChar(t[0]);
        assert IsWordChar(a[0]);
      }
    }
  }

  lemma ScanAtNonWord(prevWord: bool, t: string, alts: seq<string>, rep: string, q: seq<string>)
    requires AllWords(alts) && AllWords(q) && |t| > 0 && !IsWordChar(t[0])
    ensures ReplaceScan(prevWord, t, alts, rep) == [t[0]] + ReplaceScan(false, t[1..], alts, rep)
    ensures OccursScan(prevWord, t, q) == OccursScan(false, t[1..], q)
  {
    NoMatchAtNonWord(prevWord, t, alts);
    NoMatchAtNonWord(prevWord, t, q);
  }

  /** At the start of a word (after a non-word character), `\b p \b` matches exactly when the
      whole run, lower-cased, is `p`. */
  lemma MatchIffRun(t: string, p: string)
    requires IsWord(p) && |t| > 0 && IsWordChar(t[0])
    ensures MatchesAt(false, t, p) <==> Lower(t[..RunEnd(t)]) == p
  {
    var k := RunEnd(t);
    if MatchesAt(false, t, p) {
      forall j | 0 <= j < |p|
        ensures IsWordChar(t[j])
      {
        assert Lower(t[..|p|])[j] == p[j];
      }
      assert |p| < |t| ==> t[|p|..][0] == t[|p|];
    }
  }

  lemma FirstAltIffRun(t: string, alts: seq<string>)
    requires AllWords(alts) && |t| > 0 && IsWordChar(t[0])
    ensures FirstAlt(false, t, alts).Some? <==> Lower(t[..RunEnd(t)]) in alts
  {
    forall a | a in alts
      ensures MatchesAt(false, t, a) <==> Lower(t[..RunEnd(t)]) == a
    {
      MatchIffRun(t, a);
    }
  }

  /** At the start of a word the scan replaces or keeps the whole run. */
  lemma ScanAtRunStart(t: string, alts: seq<string>, rep: string)
    requires AllWords(alts) && |t| > 0 && IsWordChar(t[0])
    ensures var k := RunEnd(t);
      ReplaceScan(false, t, alts, rep)
      == (if Lower(t[..k]) in alts then rep else t[..k]) + ReplaceScan(true, t[k..], alts, rep)
  {
    FirstAltIffRun(t, alts);
    if FirstAlt(false, t, alts).Some? {
      assert Lower(t[..RunEnd(t)]) in alts;
      ScanMatchedRun(t, alts, rep, FirstAlt(false, t, alts).value);
    } else {
      assert Lower(t[..RunEnd(t)]) !in alts;
      ScanUnmatchedRun(t, alts, rep);
    }
  }

  /** With no matching alternative the scan copies the whole run. */
  lemma ScanUnmatchedRun(t: string, alts: seq<string>, rep: string)
    requires |t| > 0 && IsWordChar(t[0])
    requires FirstAlt(false, t, alts).None?
    ensures ReplaceScan(false, t, alts, rep) == t[..RunEnd(t)] + ReplaceScan(true, t[RunEnd(t)..], alts, rep)
  {
    var k := RunEnd(t);
    ScanCopiesFirst(t, alts, rep);
    RunInterior(t, alts, rep, alts);
    ConsRun(t, k, ReplaceScan(false, t, alts, rep), ReplaceScan(true, t[1..], alts, rep), ReplaceScan(true, t[k..], alts, rep));
  }

  lemma ConsRun(t: string, k: nat, x: string, y: string, z: string)
    requires 1 <= k <= |t| && x == [t[0]] + y && y == t[1..k] + z
    ensures x == t[..k] + z
  {
    assert [t[0]] + t[1..k] == t[..k];
  }

  lemma ScanCopiesFirst(t: string, alts: seq<string>, rep: string)
    requires |t| > 0 && IsWordChar(t[0])
    requires FirstAlt(false, t, alts).None?
    ensures ReplaceScan(false, t, alts, rep) == [t[0]] + ReplaceScan(true, t[1..], alts, rep)
  {
  }

  /** A matching alternative spans the whole run. */
  lemma ScanMatchedRun(t: string, alts: seq<string>, rep: string, i: nat)
    requires AllWords(alts) && |t| > 0 && IsWordChar(t[0])
    requires FirstAlt(false, t, alts) == Some(i)
    ensures ReplaceScan(false, t, alts, rep) == rep + ReplaceScan(true, t[RunEnd(t)..], alts, rep)
  {
    MatchIffRun(t, alts[i]);
    assert |alts[i]| == RunEnd(t);
  }

  lemma RunInterior(t: string, alts: seq<string>, rep: string, q: seq<string>)
    requires |t| > 0 && IsWordChar(t[0])
    ensures var k := RunEnd(t);
      && ReplaceScan(true, t[1..], alts, rep) == t[1..k] + ReplaceScan(true, t[k..], alts, rep)
      && OccursScan(true, t[1..], q) == OccursScan(true, t[k..], q)
  {
    var k := RunEnd(t);
    ScanInsideRun(t[1..], alts, rep, q);
    assert RunEnd(t[1..]) == k - 1;
    TailSlices(t, k);
  }

  /** At the start of a word, a word pattern occurs iff the run is that word or it occurs later. */
  lemma OccursAtRunStart(t: string, q: seq<string>)
    requires AllWords(q) && |t| > 0 && IsWordChar(t[0])
    ensures OccursScan(false, t, q) == (Lower(t[..RunEnd(t)]) in q || OccursScan(true, t[RunEnd(t)..], q))
  {
    FirstAltIffRun(t, q);
    RunInterior(t, [], "", q);
  }

  // ---------------------------------------------------------------- what a replacement does to other words

  /** Replacing the word alternatives `alts` by the word `rep` removes every occurrence of the
      alternatives and leaves every other whole word `q` (other than `rep` itself) occurring
      exactly as before: neither created nor destroyed. */
  lemma {:induction false} ScanPreservesOtherWords(t: string, alts: seq<string>, rep: string, q: string)
    requires AllWords(alts) && IsWord(rep) && IsWord(q) && Lower(rep) != q
    ensures OccursScan(false, ReplaceScan(false, t, alts, rep), [q]) == (q !in alts && OccursScan(false, t, [q]))
    decreases |t|
  {
    if |t| == 0 {
    } else if !IsWordChar(t[0]) {
      var out := ReplaceScan(false, t, alts, rep);
      ScanAtNonWord(false, t, alts, rep, [q]);
      ScanAtNonWord(false, out, alts, rep, [q]);
      assert out[1..] == ReplaceScan(false, t[1..], alts, rep);
      ScanPreservesOtherWords(t[1..], alts, rep, q);
    } else {
      var u := t[RunEnd(t)..];
      if |u| > 0 {
        ScanPreservesOtherWords(u[1..], alts, rep, q);
      }
      WordStartStep(t, alts, rep, q);
    }
  }

  /** The step of the induction above at the start of a word, given the claim for what follows
      the first non-word character after it. */
  lemma WordStartStep(t: string, alts: seq<string>, rep: string, q: string)
    requires AllWords(alts) && IsWord(rep) && IsWord(q) && Lower(rep) != q
    requires |t| > 0 && IsWordChar(t[0])
    requires var u := t[RunEnd(t)..];
      |u| > 0 ==> OccursScan(false, ReplaceScan(false, u[1..], alts, rep), [q]) == (q !in alts && OccursScan(false, u[1..], [q]))
    ensures OccursScan(false, ReplaceScan(false, t, alts, rep), [q]) == (q !in alts && OccursScan(false, t, [q]))
  {
    var k := RunEnd(t);
    var w := t[..k];
    var u := t[k..];
    var v := if Lower(w) in alts then rep else w;
    var rest := ReplaceScan(true, u, alts, rep);
    ScanAtRunStart(t, alts, rep);
    OccursAtRunStart(t, [q]);
    if |u| > 0 {
      ScanAtNonWord(true, u, alts, rep, [q]);
      ScanAtNonWord(true, rest, alts, rep, [q]);
      assert rest[1..] == ReplaceScan(false, u[1..], alts, rep);
    }
    OccursAfterWord(v, rest, q);
  }

  lemma OccursAfterWord(v: string, rest: string, q: string)
    requires IsWord(v) && IsWord(q) && (|rest| == 0 || !IsWordChar(rest[0]))
    ensures OccursScan(false, v + rest, [q]) == (Lower(v) == q || OccursScan(true, rest, [q]))
  {
    RunEndOfWordThen(v, rest);
    OccursAtRunStart(v + rest, [q]);
    assert (v + rest)[..|v|] == v && (v + rest)[|v|..] == rest;
  }

  lemma {:induction false} RunEndOfWordThen(v: string, rest: string)
    requires IsWord(v) && (|rest| == 0 || !IsWordChar(rest[0]))
    ensures RunEnd(v + rest) == |v|
    decreases |v|
  {
    var t := v + rest;
    ConcatTail(v, rest);
    assert t[0] == v[0];
    assert RunEnd(t) == 1 + RunEnd(t[1..]);
    if |v| > 1 {
      RunEndOfWordThen(v[1..], rest);
    } else {
      assert t[1..] == rest;
    }
  }

  lemma ReplacePreservesOtherWords(s: string, alts: seq<string>, rep: string, q: string)
    requires AllWords(alts) && IsWord(rep) && IsWord(q) && Lower(rep) != q
    ensures HasWord(ReplaceWords(s, alts, rep), [q]) == (q !in alts && HasWord(s, [q]))
  {
    ScanPreservesOtherWords(s, alts, rep, q);
  }

  // ---------------------------------------------------------------- chains of replacements

  /** One `.replace(/\b(a1|a2|...)\b/gi, rep)` step of a substitution table. */
  datatype Rule = Rule(alts: seq<string>, rep: string)

  /** `text.replace(...).replace(...)...`: the rules applied in table order. */
  function ApplyRules(s: string, rules: seq<Rule>): string
    decreases |rules|
  {
    if |rules| == 0 then s
    else
      var last := rules[|rules| - 1];
      ReplaceWords(ApplyRules(s, rules[..|rules| - 1]), last.alts, last.rep)
  }

  /** Every pattern of the rules is a single lower-case word and every replacement a word. */
  predicate WordRules(rules: seq<Rule>) {
    forall i :: 0 <= i < |rules| ==> AllWords(rules[i].alts) && IsWord(rules[i].rep)
  }

  /** A text in which no rule finds its word comes out of the chain unchanged. */
  lemma {:induction false} ChainIdentity(s: string, rules: seq<Rule>)
    requires forall i :: 0 <= i < |rules| ==> !HasWord(s, rules[i].alts)
    ensures ApplyRules(s, rules) == s
    decreases |rules|
  {
    if |rules| > 0 {
      var n := |rules| - 1;
      ChainIdentity(s, rules[..n]);
      ScanUnchanged(false, s, rules[n].alts, rules[n].rep);
    }
  }

  /** A word that no rule looks for and no rule writes occurs after the chain exactly when it
      occurred before. */
  lemma {:induction false} ChainPreserves(s: string, rules: seq<Rule>, q: string)
    requires WordRules(rules) && IsWord(q)
    requires forall i :: 0 <= i < |rules| ==> q !in rules[i].alts && Lower(rules[i].rep) != q
    ensures HasWord(ApplyRules(s, rules), [q]) == HasWord(s, [q])
    decreases |rules|
  {
    if |rules| > 0 {
      var n := |rules| - 1;
      ChainPreserves(s, rules[..n], q);
      ReplacePreservesOtherWords(ApplyRules(s, rules[..n]), rules[n].alts, rules[n].rep, q);
    }
  }

  /** A word that rule `i` looks for is gone for good after the chain, provided neither rule `i`
      nor any later rule writes it back; the rules from `i` on must be word rules. */
  lemma {:induction false} ChainEliminates(s: string, rules: seq<Rule>, i: nat, q: string)
    requires i < |rules| && q in rules[i].alts && IsWord(q)
    requires WordRules(rules[i..])
    requires forall j :: i <= j < |rules| ==> Lower(rules[j].rep) != q
    ensures !HasWord(ApplyRules(s, rules), [q])
    decreases |rules|
  {
    var n := |rules| - 1;
    assert rules[n] == rules[i..][n - i];
    if n > i {
      assert rules[..n][i..] == rules[i..][..n - i];
      ChainEliminates(s, rules[..n], i, q);
    }
    ReplacePreservesOtherWords(ApplyRules(s, rules[..n]), rules[n].alts, rules[n].rep, q);
  }

  /** An alternation finds nothing where none of its alternatives is found on its own. */
  lemma {:induction false} AbsentAlternativesScan(prevWord: bool, t: string, alts: seq<string>)
    requires forall a :: a in alts ==> !OccursScan(prevWord, t, [a])
    ensures !OccursScan(prevWord, t, alts)
    decreases |t|
  {
    if |t| > 0 {
      forall a | a in alts
        ensures !MatchesAt(prevWord, t, a)
      {
        assert FirstAlt(prevWord, t, [a]).None?;
      }
      AbsentAlternativesScan(IsWordChar(t[0]), t[1..], alts);
    }
  }

  lemma AbsentAlternatives(s: string, alts: seq<string>)
    requires forall a :: a in alts ==> !HasWord(s, [a])
    ensures !HasWord(s, alts)
  {
    AbsentAlternativesScan(false, s, alts);
  }

  /** No rule writes back a word that it or an earlier rule looks for. */
  predicate NoRewriteBack(rules: seq<Rule>) {
    forall i, j, q :: 0 <= i <= j < |rules| && q in rules[i].alts ==> Lower(rules[j].rep) != q
  }

  /** A rule replacing single words by a single word. */
  predicate WordRule(r: Rule) {
    AllWords(r.alts) && IsWord(r.rep)
  }

  lemma OneWordRule(alt: string, rep: string)
    requires IsWord(alt) && IsWord(rep)
    ensures WordRule(Rule([alt], rep))
  {
  }

  /** Rule `j` writes back none of the words looked for by the rules up to `j`. */
  predicate FreshAt(rules: seq<Rule>, j: nat)
    requires j < |rules|
  {
    forall i, q :: 0 <= i <= j && q in rules[i].alts ==> Lower(rules[j].rep) != q
  }

  lemma AllFresh(rules: seq<Rule>)
    requires forall j :: 0 <= j < |rules| ==> FreshAt(rules, j)
    ensures NoRewriteBack(rules)
  {
    forall i, j, q | 0 <= i <= j < |rules| && q in rules[i].alts
      ensures Lower(rules[j].rep) != q
    {
      assert FreshAt(rules, j);
    }
  }

  /** A chain of word rules that never writes back a word it looks for leaves none of those
      words in its output. */
  lemma ChainEliminatesAll(s: string, rules: seq<Rule>)
    requires WordRules(rules) && NoRewriteBack(rules)
    ensures forall i, q :: 0 <= i < |rules| && q in rules[i].alts ==> !HasWord(ApplyRules(s, rules), [q])
  {
    forall i, q | 0 <= i < |rules| && q in rules[i].alts
      ensures !HasWord(ApplyRules(s, rules), [q])
    {
      assert IsWord(q);
      ChainEliminates(s, rules, i, q);
    }
  }

  /** None of the words the rules look for occurs in `s`. */
  predicate FindsNone(s: string, rules: seq<Rule>) {
    forall i, q :: 0 <= i < |rules| && q in rules[i].alts ==> !HasWord(s, [q])
  }

  /** A text holding none of the words the rules look for comes out of the chain unchanged. */
  lemma ChainKeepsPlainText(s: string, rules: seq<Rule>)
    requires FindsNone(s, rules)
    ensures ApplyRules(s, rules) == s
  {
    forall i | 0 <= i < |rules|
      ensures !HasWord(s, rules[i].alts)
    {
      AbsentAlternatives(s, rules[i].alts);
    }
    ChainIdentity(s, rules);
  }

  /** No rule writes a word, or looks for a word, that a later rule looks for. */
  predicate NoWriteAhead(rules: seq<Rule>) {
    forall i, j, q :: 0 <= j < i < |rules| && q in rules[i].alts ==> Lower(rules[j].rep) != q && q !in rules[j].alts
  }

  /** No rule before `i` writes or looks for a word that rule `i` looks for. */
  predicate ClearBefore(rules: seq<Rule>, i: nat)
    requires i < |rules|
  {
    forall j, q :: 0 <= j < i && q in rules[i].alts ==> Lower(rules[j].rep) != q && q !in rules[j].alts
  }

  lemma AllClearBefore(rules: seq<Rule>)
    requires forall i :: 0 <= i < |rules| ==> ClearBefore(rules, i)
    ensures NoWriteAhead(rules)
  {
    forall i, j, q | 0 <= j < i < |rules| && q in rules[i].alts
      ensures Lower(rules[j].rep) != q && q !in rules[j].alts
    {
      assert ClearBefore(rules, i);
    }
  }

  /** In a chain where each rule looks for one word and replaces it by a shorter one, and no rule
      writes ahead, rule `i` changes the partly rewritten text exactly when its word occurs in the
      original text. */
  lemma ChainStep(s: string, rules: seq<Rule>, i: nat)
    requires i < |rules| && WordRules(rules) && NoWriteAhead(rules)
    requires |rules[i].alts| == 1 && ShorterThanAll(rules[i].rep, rules[i].alts)
    ensures var before := ApplyRules(s, rules[..i]);
      (ReplaceWords(before, rules[i].alts, rules[i].rep) != before) == HasWord(s, rules[i].alts)
  {
    var q := rules[i].alts[0];
    assert rules[i].alts == [q];
    assert IsWord(q);
    ChainPreserves(s, rules[..i], q);
    ReplaceChangesIffOccurs(ApplyRules(s, rules[..i]), rules[i].alts, rules[i].rep);
  }

  /** How many rules find their word in `s`. */
  function CountFound(s: string, rules: seq<Rule>): (n: nat)
    ensures n <= |rules|
  {
    if |rules| == 0 then 0
    else CountFound(s, rules[..|rules| - 1]) + (if HasWord(s, rules[|rules| - 1].alts) then 1 else 0)
  }

  lemma {:induction false} NoneFound(s: string, rules: seq<Rule>)
    requires CountFound(s, rules) == 0
    ensures forall k :: 0 <= k < |rules| ==> !HasWord(s, rules[k].alts)
    decreases |rules|
  {
    if |rules| > 0 {
      NoneFound(s, rules[..|rules| - 1]);
    }
  }

  /** One more rule of the table: one more replacement, and one more count if its word occurs. */
  lemma ChainAdvance(s: string, rules: seq<Rule>, i: nat)
    requires i < |rules|
    ensures ApplyRules(s, rules[..i + 1]) == ReplaceWords(ApplyRules(s, rules[..i]), rules[i].alts, rules[i].rep)
    ensures CountFound(s, rules[..i + 1]) == CountFound(s, rules[..i]) + (if HasWord(s, rules[i].alts) then 1 else 0)
  {
    assert rules[..i + 1][..i] == rules[..i];
  }
}
