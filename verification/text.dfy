/** Tokenisation, trimming, searching, joining and whole-word replacement shared by every
    surface of the writing assistant (toolbar, side panel, popup, background worker).

    Strings are sequences of Unicode scalar values. JavaScript's `\s` and `String.prototype.trim`
    are modelled exactly by `IsWs`; `\w` and `\b` are ASCII by definition; the `i` flag on an
    ASCII pattern compares ASCII letters case-insensitively; `toLowerCase` is modelled on ASCII
    letters only. */
module Text {

  datatype Option<T> = None | Some(value: T)

  // ---------------------------------------------------------------- characters

  /** JavaScript's `\s`: the WhiteSpace and LineTerminator code points, which are also exactly
      the characters that `trim` removes. */
  predicate IsWs(c: char) {
    || c == ' ' || c == '\t' || c == '\n' || c == '\r' || c == '\U{B}' || c == '\U{C}'
    || c == '\U{A0}' || c == '\U{1680}' || ('\U{2000}' <= c <= '\U{200A}')
    || c == '\U{2028}' || c == '\U{2029}' || c == '\U{202F}' || c == '\U{205F}'
    || c == '\U{3000}' || c == '\U{FEFF}'
  }

  /** JavaScript's `\w` (without the `u` flag): `[A-Za-z0-9_]`. */
  predicate IsWordChar(c: char) {
    'A' <= c <= 'Z' || 'a' <= c <= 'z' || '0' <= c <= '9' || c == '_'
  }

  predicate IsUpperAZ(c: char) {
    'A' <= c <= 'Z'
  }

  predicate IsDigit(c: char) {
    '0' <= c <= '9'
  }

  /** The class `[.!?]` that ends a sentence. */
  predicate IsTerminator(c: char) {
    c == '.' || c == '!' || c == '?'
  }

  /** `toLowerCase` on one character, restricted to ASCII letters. */
  function LowerChar(c: char): (d: char)
    ensures IsWordChar(d) == IsWordChar(c) && IsWs(d) == IsWs(c) && IsTerminator(d) == IsTerminator(c)
    ensures !IsUpperAZ(d)
    ensures IsUpperAZ(c) ==> d as int == c as int + 32
    ensures !IsUpperAZ(c) ==> d == c
  {
    if IsUpperAZ(c) then (c as int + 32) as char else c
  }

  function Lower(s: string): (r: string)
    ensures |r| == |s|
    ensures forall i :: 0 <= i < |s| ==> r[i] == LowerChar(s[i])
    ensures NoUpper(r)
  {
    seq(|s|, i requires 0 <= i < |s| => LowerChar(s[i]))
  }

  lemma LowerAppend(a: string, b: string)
    ensures Lower(a + b) == Lower(a) + Lower(b)
  {
  }

  predicate NoUpper(s: string) {
    forall i :: 0 <= i < |s| ==> !IsUpperAZ(s[i])
  }

  lemma LowerIdentity(s: string)
    requires NoUpper(s)
    ensures Lower(s) == s
  {
  }

  /** Number of characters of `s` that are not whitespace: the length of `s.replace(/\s+/g, '')`. */
  function NonWsCount(s: string): (n: nat)
    ensures n <= |s|
  {
    if |s| == 0 then 0 else NonWsCount(s[..|s| - 1]) + (if IsWs(s[|s| - 1]) then 0 else 1)
  }

  /** Number of occurrences of the character `c` in `s`, e.g. `(text.match(/!/g) || []).length`. */
  function CountChar(s: string, c: char): (n: nat)
    ensures n <= |s|
    ensures n == 0 <==> c !in s
    ensures n == multiset(s)[c]
  {
    if |s| == 0 then 0
    else
      assert s == [s[0]] + s[1..];
      CountChar(s[1..], c) + (if s[0] == c then 1 else 0)
  }

  // ---------------------------------------------------------------- splitting on runs

  /** The two separator classes the source splits on: `/\s+/` and `/[.!?]+/`. */
  datatype Delim = Whitespace | Terminators

  predicate IsDelim(d: Delim, c: char) {
    match d
    case Whitespace => IsWs(c)
    case Terminators => IsTerminator(c)
  }

  /** First index at or after `i` holding a separator, or |s|. */
  function NextDelim(s: string, i: nat, d: Delim): (k: nat)
    requires i <= |s|
    ensures i <= k <= |s|
    ensures forall j :: i <= j < k ==> !IsDelim(d, s[j])
    ensures k < |s| ==> IsDelim(d, s[k])
    decreases |s| - i
  {
    if i == |s| || IsDelim(d, s[i]) then i else NextDelim(s, i + 1, d)
  }

  /** First index at or after `i` holding a non-separator, or |s|. */
  function SkipDelims(s: string, i: nat, d: Delim): (k: nat)
    requires i <= |s|
    ensures i <= k <= |s|
    ensures forall j :: i <= j < k ==> IsDelim(d, s[j])
    ensures k < |s| ==> !IsDelim(d, s[k])
    decreases |s| - i
  {
    if i == |s| || !IsDelim(d, s[i]) then i else SkipDelims(s, i + 1, d)
  }

  predicate NoDelim(d: Delim, s: string) {
    forall j :: 0 <= j < |s| ==> !IsDelim(d, s[j])
  }

  /** `s.split(/[class]+/)`: the fields between maximal runs of separators, in order. A leading
      or trailing run contributes an empty field, so there is always at least one field. */
  function SplitRuns(s: string, d: Delim): (fields: seq<string>)
    ensures |fields| >= 1
    ensures forall k :: 0 <= k < |fields| ==> NoDelim(d, fields[k])
    decreases |s|
  {
    var i := NextDelim(s, 0, d);
    if i == |s| then [s]
    else
      var j := SkipDelims(s, i, d);
      [s[..i]] + SplitRuns(s[j..], d)
  }

  /** `s.split(/\s+/)`. */
  function SplitWs(s: string): (fields: seq<string>)
    ensures |fields| >= 1
  {
    SplitRuns(s, Whitespace)
  }

  /** The fields put back together with the separator runs between them. */
  function Interleave(parts: seq<string>, seps: seq<string>): string
    requires |parts| == |seps| + 1
    decreases |seps|
  {
    if |seps| == 0 then parts[0] else parts[0] + seps[0] + Interleave(parts[1..], seps[1..])
  }

  /** A non-empty run of separators. */
  predicate IsRun(d: Delim, sep: string) {
    |sep| > 0 && forall j :: 0 <= j < |sep| ==> IsDelim(d, sep[j])
  }

  /** `s` cut at maximal separator runs: separator-free fields alternating with runs, where
      every field between two runs is non-empty (so no two runs touch). */
  predicate IsSplit(s: string, d: Delim, parts: seq<string>, seps: seq<string>) {
    && |parts| == |seps| + 1
    && Interleave(parts, seps) == s
    && (forall k :: 0 <= k < |parts| ==> NoDelim(d, parts[k]))
    && (forall k :: 0 <= k < |seps| ==> IsRun(d, seps[k]))
    && (forall k :: 0 < k < |parts| - 1 ==> |parts[k]| > 0)
  }

  /** The separator runs `SplitRuns` cuts at, in order. */
  function SplitSeps(s: string, d: Delim): seq<string>
    decreases |s|
  {
    var i := NextDelim(s, 0, d);
    if i == |s| then []
    else
      var j := SkipDelims(s, i, d);
      [s[i..j]] + SplitSeps(s[j..], d)
  }

  /** `SplitRuns` cuts `s` at its maximal separator runs. */
  lemma {:induction false} SplitRunsIsSplit(s: string, d: Delim)
    ensures IsSplit(s, d, SplitRuns(s, d), SplitSeps(s, d))
    decreases |s|
  {
    var i := NextDelim(s, 0, d);
    if i < |s| {
      var rest := s[SkipDelims(s, i, d)..];
      SplitRunsIsSplit(rest, d);
      SplitRunsCut(s, d);
    } else {
      assert SplitRuns(s, d) == [s] && SplitSeps(s, d) == [];
      assert Interleave([s], []) == s;
    }
  }

  /** One cut in front of a correctly cut remainder. */
  lemma SplitRunsCut(s: string, d: Delim)
    requires NextDelim(s, 0, d) < |s|
    requires var rest := s[SkipDelims(s, NextDelim(s, 0, d), d)..];
      IsSplit(rest, d, SplitRuns(rest, d), SplitSeps(rest, d))
    ensures IsSplit(s, d, SplitRuns(s, d), SplitSeps(s, d))
  {
    var i := NextDelim(s, 0, d);
    var j := SkipDelims(s, i, d);
    var rest := s[j..];
    CutPieces(s, d);
    IsSplitCons(s, d, i, j, SplitRuns(rest, d), SplitSeps(rest, d));
  }

  /** The pieces of one cut: a separator-free field, a run, and a remainder whose first field
      is non-empty when it is cut again. */
  lemma CutPieces(s: string, d: Delim)
    requires NextDelim(s, 0, d) < |s|
    ensures var i := NextDelim(s, 0, d);
      var j := SkipDelims(s, i, d);
      && NoDelim(d, s[..i]) && IsRun(d, s[i..j])
      && (|SplitRuns(s[j..], d)| > 1 ==> |SplitRuns(s[j..], d)[0]| > 0)
  {
    var i := NextDelim(s, 0, d);
    var j := SkipDelims(s, i, d);
    SlicePieces(s, i, j, d);
    if |SplitRuns(s[j..], d)| > 1 {
      FirstFieldNonEmpty(s[j..], d);
    }
  }

  lemma SlicePieces(s: string, i: nat, j: nat, d: Delim)
    requires i < j <= |s|
    requires forall k :: 0 <= k < i ==> !IsDelim(d, s[k])
    requires forall k :: i <= k < j ==> IsDelim(d, s[k])
    requires j < |s| ==> !IsDelim(d, s[j])
    ensures NoDelim(d, s[..i]) && IsRun(d, s[i..j])
    ensures |s[j..]| > 0 ==> !IsDelim(d, s[j..][0])
  {
  }

  /** A separator-free field and a run in front of a cut text give a cut of the whole. */
  lemma IsSplitCons(s: string, d: Delim, i: nat, j: nat, tail: seq<string>, seps: seq<string>)
    requires i <= j <= |s|
    requires IsSplit(s[j..], d, tail, seps)
    requires NoDelim(d, s[..i]) && IsRun(d, s[i..j])
    requires |tail| > 1 ==> |tail[0]| > 0
    ensures IsSplit(s, d, [s[..i]] + tail, [s[i..j]] + seps)
  {
    assert s == s[..i] + s[i..j] + s[j..];
    var parts := [s[..i]] + tail;
    assert parts[1..] == tail && ([s[i..j]] + seps)[1..] == seps;
    forall k | 0 < k < |parts| - 1
      ensures |parts[k]| > 0
    {
      assert parts[k] == tail[k - 1];
    }
  }

  /** When `SplitRuns` cuts at least once after a non-separator start, its first field is not
      empty. */
  lemma FirstFieldNonEmpty(s: string, d: Delim)
    requires |SplitRuns(s, d)| > 1
    requires |s| > 0 ==> !IsDelim(d, s[0])
    ensures |SplitRuns(s, d)[0]| > 0
  {
  }

  /** Any cut of `s` at maximal separator runs is the one `SplitRuns` makes. */
  lemma {:induction false} SplitRunsUnique(s: string, d: Delim, parts: seq<string>, seps: seq<string>)
    requires IsSplit(s, d, parts, seps)
    ensures parts == SplitRuns(s, d)
    decreases |seps|
  {
    if |seps| > 0 {
      var rest := Interleave(parts[1..], seps[1..]);
      SplitTail(s, d, parts, seps);
      SplitFirstCut(s, d, parts, seps);
      SplitRunsUnique(rest, d, parts[1..], seps[1..]);
      HeadTail(parts);
    } else {
      assert s == parts[0];
    }
  }

  /** Dropping the first field and run of a cut leaves a cut of the remainder. */
  lemma SplitTail(s: string, d: Delim, parts: seq<string>, seps: seq<string>)
    requires IsSplit(s, d, parts, seps) && |seps| > 0
    ensures IsSplit(Interleave(parts[1..], seps[1..]), d, parts[1..], seps[1..])
    ensures s == parts[0] + seps[0] + Interleave(parts[1..], seps[1..])
  {
    forall k | 0 < k < |parts[1..]| - 1
      ensures |parts[1..][k]| > 0
    {
      assert parts[1..][k] == parts[k + 1];
    }
  }

  /** `SplitRuns` makes its first cut where the given cut makes its first. */
  lemma SplitFirstCut(s: string, d: Delim, parts: seq<string>, seps: seq<string>)
    requires IsSplit(s, d, parts, seps) && |seps| > 0
    requires s == parts[0] + seps[0] + Interleave(parts[1..], seps[1..])
    ensures var i := |parts[0]|;
      var j := |parts[0]| + |seps[0]|;
      && NextDelim(s, 0, d) == i < |s|
      && SkipDelims(s, i, d) == j
      && s[..i] == parts[0]
      && s[j..] == Interleave(parts[1..], seps[1..])
  {
    var p := parts[0];
    var rest := Interleave(parts[1..], seps[1..]);
    var i := |p|;
    var j := |p| + |seps[0]|;
    assert s[i] == seps[0][0];
    NextDelimAt(s, p, d);
    assert s[j..] == rest;
    assert s[i..j] == seps[0];
    StartOfRest(parts, seps, d);
    SkipDelimsAt(s, i, seps[0], rest, d);
  }

  /** The remainder after a cut opens with a non-separator, or is empty. */
  lemma StartOfRest(parts: seq<string>, seps: seq<string>, d: Delim)
    requires |parts| == |seps| + 1 && |seps| > 0
    requires forall k :: 0 <= k < |parts| ==> NoDelim(d, parts[k])
    requires forall k :: 0 < k < |parts| - 1 ==> |parts[k]| > 0
    ensures var t := Interleave(parts[1..], seps[1..]);
      |t| > 0 ==> !IsDelim(d, t[0])
  {
    InterleaveStart(parts[1..], seps[1..], d);
  }

  lemma NextDelimAt(s: string, p: string, d: Delim)
    requires |p| < |s| && s[..|p|] == p && NoDelim(d, p) && IsDelim(d, s[|p|])
    ensures NextDelim(s, 0, d) == |p|
  {
    assert forall m :: 0 <= m < |p| ==> s[m] == p[m];
  }

  lemma SkipDelimsAt(s: string, i: nat, sep: string, rest: string, d: Delim)
    requires i + |sep| <= |s| && s[i..i + |sep|] == sep && IsRun(d, sep)
    requires s[i + |sep|..] == rest && (|rest| > 0 ==> !IsDelim(d, rest[0]))
    ensures SkipDelims(s, i, d) == i + |sep|
  {
    assert forall m :: i <= m < i + |sep| ==> s[m] == sep[m - i];
    assert i + |sep| < |s| ==> s[i + |sep|] == rest[0];
  }

  /** A cut text opens with a non-separator, or is empty. */
  lemma InterleaveStart(parts: seq<string>, seps: seq<string>, d: Delim)
    requires |parts| == |seps| + 1
    requires forall k :: 0 <= k < |parts| ==> NoDelim(d, parts[k])
    requires |seps| > 0 ==> |parts[0]| > 0
    ensures var t := Interleave(parts, seps);
      |t| > 0 ==> !IsDelim(d, t[0])
  {
    if |seps| > 0 {
      assert Interleave(parts, seps)[0] == parts[0][0];
    }
  }

  /** A field is kept as a sentence when it is not blank: `s.trim().length > 0`. */
  function KeepNonBlank(fields: seq<string>): (kept: seq<string>)
    ensures |kept| <= |fields|
    ensures forall k :: 0 <= k < |kept| ==> |Trim(kept[k])| > 0
    ensures (forall k :: 0 <= k < |fields| ==> NoDelim(Terminators, fields[k]))
        ==> forall k :: 0 <= k < |kept| ==> NoDelim(Terminators, kept[k])
  {
    if |fields| == 0 then []
    else if |Trim(fields[0])| > 0 then [fields[0]] + KeepNonBlank(fields[1..])
    else KeepNonBlank(fields[1..])
  }

  /** A field is kept iff it is not blank. */
  lemma {:induction false} KeepNonBlankMembers(fields: seq<string>)
    ensures forall f :: f in KeepNonBlank(fields) <==> f in fields && |Trim(f)| > 0
    decreases |fields|
  {
    if |fields| > 0 {
      KeepNonBlankMembers(fields[1..]);
      HeadTail(fields);
    }
  }

  /** The filter keeps a single field exactly when it is not blank, and distributes over
      concatenation. */
  lemma {:induction false} KeepNonBlankAppend(a: seq<string>, b: seq<string>)
    ensures KeepNonBlank(a + b) == KeepNonBlank(a) + KeepNonBlank(b)
    ensures |a| == 1 ==> KeepNonBlank(a) == if |Trim(a[0])| > 0 then a else []
    decreases |a|
  {
    if |a| == 0 {
      assert a + b == b;
    } else {
      ConcatTail(a, b);
      assert (a + b)[0] == a[0];
      KeepNonBlankAppend(a[1..], b);
      var head := if |Trim(a[0])| > 0 then [a[0]] else [];
      PrefixAppend(KeepNonBlank(a), KeepNonBlank(a + b), head, KeepNonBlank(a[1..]), KeepNonBlank(a[1..] + b), KeepNonBlank(b));
      if |a| == 1 {
        assert a[1..] == [];
      }
    }
  }

  /** `text.split(/[.!?]+/).filter(s => s.trim().length > 0)`: the non-blank sentences, NOT trimmed. */
  function SplitSentences(s: string): (sentences: seq<string>)
    ensures forall k :: 0 <= k < |sentences| ==> |Trim(sentences[k])| > 0 && NoDelim(Terminators, sentences[k])
    ensures forall x :: x in sentences <==> x in SplitRuns(s, Terminators) && |Trim(x)| > 0
  {
    KeepNonBlankMembers(SplitRuns(s, Terminators));
    KeepNonBlank(SplitRuns(s, Terminators))
  }

  /** `s.split(c)` for a one-character separator string: every occurrence separates two fields. */
  function SplitAt(s: string, c: char): (fields: seq<string>)
    ensures |fields| >= 1
    decreases |s|
  {
    if c in s then
      var i := IndexOfChar(s, c);
      [s[..i]] + SplitAt(s[i + 1..], c)
    else [s]
  }

  function IndexOfChar(s: string, c: char): (i: nat)
    requires c in s
    ensures i < |s| && s[i] == c && c !in s[..i]
  {
    if s[0] == c then 0 else 1 + IndexOfChar(s[1..], c)
  }

  // ---------------------------------------------------------------- trimming

  /** Largest `b <= k` such that `s[b..k]` is all whitespace. */
  function TrimEndIndex(s: string, k: nat): (b: nat)
    requires k <= |s|
    ensures b <= k
    ensures forall j :: b <= j < k ==> IsWs(s[j])
    ensures b > 0 ==> !IsWs(s[b - 1])
  {
    if k > 0 && IsWs(s[k - 1]) then TrimEndIndex(s, k - 1) else k
  }

  /** `String.prototype.trim`. */
  function Trim(s: string): (r: string)
    ensures |r| <= |s|
    ensures |r| == 0 <==> forall j :: 0 <= j < |s| ==> IsWs(s[j])
    ensures |r| > 0 ==> !IsWs(r[0]) && !IsWs(r[|r| - 1])
  {
    var a := SkipDelims(s, 0, Whitespace);
    var b := TrimEndIndex(s, |s|);
    if a < b then s[a..b] else ""
  }

  /** `trim` removes exactly the leading and trailing whitespace: the result is a slice of `s`
      with only whitespace before and after it. */
  lemma TrimStrips(s: string)
    ensures exists a, b :: 0 <= a <= b <= |s| && Trim(s) == s[a..b] && AllWs(s[..a]) && AllWs(s[b..])
  {
    var a := SkipDelims(s, 0, Whitespace);
    var b := TrimEndIndex(s, |s|);
    if a < b {
      assert AllWs(s[..a]) && AllWs(s[b..]);
    } else {
      assert AllWs(s[..0]) && AllWs(s[0..]) && Trim(s) == s[0..0];
    }
  }

  predicate AllWs(s: string) {
    forall j :: 0 <= j < |s| ==> IsWs(s[j])
  }

  /** `trim` removes characters only at the ends: a character absent from `s` is absent from `Trim(s)`. */
  lemma TrimKeepsAbsent(s: string, c: char)
    requires c !in s
    ensures c !in Trim(s)
  {
    var a := SkipDelims(s, 0, Whitespace);
    var b := TrimEndIndex(s, |s|);
    if a < b {
      assert forall j :: 0 <= j < b - a ==> Trim(s)[j] == s[a + j];
    }
  }

  lemma TrimKeepsNoDelim(s: string, d: Delim)
    requires NoDelim(d, s)
    ensures NoDelim(d, Trim(s))
  {
    var a := SkipDelims(s, 0, Whitespace);
    var b := TrimEndIndex(s, |s|);
    if a < b {
      assert forall j :: 0 <= j < b - a ==> Trim(s)[j] == s[a + j];
    }
  }

  /** The shape `trim` leaves behind: empty, or starting and ending with a non-whitespace character. */
  predicate IsTrimmed(s: string) {
    |s| > 0 ==> !IsWs(s[0]) && !IsWs(s[|s| - 1])
  }

  lemma TrimOfTrimmed(s: string)
    requires IsTrimmed(s)
    ensures Trim(s) == s
  {
    var a := SkipDelims(s, 0, Whitespace);
    var b := TrimEndIndex(s, |s|);
    if |s| > 0 {
      assert a == 0 && b == |s|;
    }
  }

  /** Whitespace in front of an already trimmed string is removed by `trim`. */
  lemma TrimPadded(lead: string, x: string)
    requires forall j :: 0 <= j < |lead| ==> IsWs(lead[j])
    requires |x| > 0 && IsTrimmed(x)
    ensures Trim(lead + x) == x
  {
    var s := lead + x;
    var a := SkipDelims(s, 0, Whitespace);
    var b := TrimEndIndex(s, |s|);
    assert s[|lead|] == x[0];
    assert a == |lead|;
    assert s[|s| - 1] == x[|x| - 1];
    assert b == |s|;
    assert s[a..b] == x;
  }

  // ---------------------------------------------------------------- searching

  predicate OccursAt(s: string, sub: string, i: nat) {
    i + |sub| <= |s| && s[i..i + |sub|] == sub
  }

  /** `s.includes(sub)`. */
  predicate Contains(s: string, sub: string) {
    exists i :: 0 <= i <= |s| && OccursAt(s, sub, i)
  }

  function IndexOfFrom(s: string, sub: string, i: nat): (r: int)
    requires i <= |s|
    ensures r == -1 || (i <= r <= |s| && OccursAt(s, sub, r))
    ensures forall j :: i <= j <= |s| && (r == -1 || j < r) ==> !OccursAt(s, sub, j)
    decreases |s| - i
  {
    if OccursAt(s, sub, i) then i
    else if i == |s| then -1
    else IndexOfFrom(s, sub, i + 1)
  }

  /** `s.indexOf(sub)`: the first position of `sub` in `s`, or -1 when it does not occur. */
  function IndexOf(s: string, sub: string): (r: int)
    ensures r == -1 <==> !Contains(s, sub)
    ensures r >= 0 ==> OccursAt(s, sub, r) && forall j :: 0 <= j < r ==> !OccursAt(s, sub, j)
  {
    IndexOfFrom(s, sub, 0)
  }

  /** `p` is where `sub` first occurs in `s`, as `indexOf` reports it. */
  predicate IsFirstOccurrence(s: string, sub: string, p: int) {
    0 <= p && OccursAt(s, sub, p) && forall j :: 0 <= j < p ==> !OccursAt(s, sub, j)
  }

  // ---------------------------------------------------------------- joining

  /** `xs.join(sep)`. */
  function Join(xs: seq<string>, sep: string): string {
    if |xs| == 0 then "" else if |xs| == 1 then xs[0] else xs[0] + sep + Join(xs[1..], sep)
  }

  function Take<T>(xs: seq<T>, n: nat): (r: seq<T>)
    ensures |r| == if n < |xs| then n else |xs|
    ensures r == xs[..|r|]
  {
    if n < |xs| then xs[..n] else xs
  }

  function MapTrim(xs: seq<string>): (r: seq<string>)
    ensures |r| == |xs|
    ensures forall k :: 0 <= k < |xs| ==> r[k] == Trim(xs[k])
  {
    if |xs| == 0 then [] else [Trim(xs[0])] + MapTrim(xs[1..])
  }

  // ---------------------------------------------------------------- splitting what was joined

  lemma SplitRunsNoDelim(a: string, d: Delim)
    requires NoDelim(d, a)
    ensures SplitRuns(a, d) == [a]
  {
  }

  /** A field free of separators, one separator, then a non-separator: the field comes off whole. */
  lemma SplitRunsStep(a: string, c: char, rest: string, d: Delim)
    requires NoDelim(d, a) && IsDelim(d, c) && (|rest| == 0 || !IsDelim(d, rest[0]))
    ensures SplitRuns(a + [c] + rest, d) == [a] + SplitRuns(rest, d)
  {
    var s := a + [c] + rest;
    assert s[|a|] == c;
    assert forall j :: 0 <= j < |a| ==> s[j] == a[j];
    var i := NextDelim(s, 0, d);
    assert i == |a|;
    assert |rest| > 0 ==> s[|a| + 1] == rest[0];
    assert SkipDelims(s, i, d) == |a| + 1;
    assert s[..|a|] == a && s[|a| + 1..] == rest;
  }

  /** A sentence as the summaries and the rephraser emit it: trimmed, non-empty, no terminator. */
  predicate IsCleanSentence(x: string) {
    |x| > 0 && IsTrimmed(x) && NoDelim(Terminators, x)
  }

  lemma KeepNonBlankCons(a: string, rest: seq<string>)
    ensures KeepNonBlank([a] + rest) == (if |Trim(a)| > 0 then [a] else []) + KeepNonBlank(rest)
  {
    assert ([a] + rest)[1..] == rest;
  }

  lemma MapTrimCons(a: string, rest: seq<string>)
    ensures MapTrim([a] + rest) == [Trim(a)] + MapTrim(rest)
  {
  }

  /** Every sentence of the list is clean. */
  predicate AllClean(xs: seq<string>) {
    |xs| == 0 || (IsCleanSentence(xs[0]) && AllClean(xs[1..]))
  }

  lemma {:induction false} AllCleanOf(xs: seq<string>)
    requires forall k :: 0 <= k < |xs| ==> IsCleanSentence(xs[k])
    ensures AllClean(xs)
    decreases |xs|
  {
    if |xs| > 0 {
      assert forall k :: 0 <= k < |xs| - 1 ==> xs[1..][k] == xs[k + 1];
      AllCleanOf(xs[1..]);
    }
  }

  lemma {:induction false} ResplitPadded(lead: string, xs: seq<string>)
    requires lead == "" || lead == " "
    requires AllClean(xs)
    ensures MapTrim(KeepNonBlank(SplitRuns(lead + Join(xs, ". ") + ".", Terminators))) == xs
    decreases |xs|
  {
    if |xs| == 0 {
      ResplitNone(lead, xs);
    } else if |xs| == 1 {
      ResplitOne(lead, xs);
    } else {
      var tail := xs[1..];
      ResplitPadded(" ", tail);
      LeadIsWs(lead);
      ResplitCons(lead, xs[0], tail);
      HeadTail(xs);
    }
  }

  lemma ResplitNone(lead: string, xs: seq<string>)
    requires lead == "" || lead == " "
    requires |xs| == 0
    ensures MapTrim(KeepNonBlank(SplitRuns(lead + Join(xs, ". ") + ".", Terminators))) == xs
  {
    assert lead + Join(xs, ". ") + "." == lead + ['.'] + "";
    LeadIsWs(lead);
    ResplitEmpty(lead);
  }

  lemma ResplitOne(lead: string, xs: seq<string>)
    requires lead == "" || lead == " "
    requires |xs| == 1 && AllClean(xs)
    ensures MapTrim(KeepNonBlank(SplitRuns(lead + Join(xs, ". ") + ".", Terminators))) == xs
  {
    assert lead + Join(xs, ". ") + "." == (lead + xs[0]) + ['.'] + "";
    LeadIsWs(lead);
    ResplitLast(lead, xs[0]);
  }

  /** One more sentence in front of a list that already re-splits to itself. */
  lemma ResplitCons(lead: string, x: string, tail: seq<string>)
    requires forall j :: 0 <= j < |lead| ==> IsWs(lead[j])
    requires IsCleanSentence(x) && |tail| > 0
    requires MapTrim(KeepNonBlank(SplitRuns(" " + Join(tail, ". ") + ".", Terminators))) == tail
    ensures MapTrim(KeepNonBlank(SplitRuns(lead + Join([x] + tail, ". ") + ".", Terminators))) == [x] + tail
  {
    var more := Join(tail, ". ");
    assert ([x] + tail)[1..] == tail;
    assert Join([x] + tail, ". ") == x + ". " + more;
    DotSplit(lead, x, more);
    ResplitFirst(lead, x, " " + more + ".", tail);
  }

  lemma HeadTail<T>(xs: seq<T>)
    requires |xs| > 0
    ensures [xs[0]] + xs[1..] == xs
  {
  }

  /** The slices of `t[1..]` in terms of those of `t`. */
  lemma TailSlices<T>(t: seq<T>, k: nat)
    requires 1 <= k <= |t|
    ensures t[1..][k - 1..] == t[k..]
    ensures t[1..][..k - 1] == t[1..k]
    ensures [t[0]] + t[1..][..k - 1] == t[..k]
  {
  }

  /** A common head in front of both sides of a concatenation law. */
  lemma PrefixAppend<T>(ka: seq<T>, kab: seq<T>, head: seq<T>, kr: seq<T>, krb: seq<T>, kb: seq<T>)
    requires ka == head + kr && kab == head + krb && krb == kr + kb
    ensures kab == ka + kb
  {
  }

  lemma ConcatTail<T>(a: seq<T>, b: seq<T>)
    requires |a| > 0
    ensures (a + b)[1..] == a[1..] + b
  {
  }

  lemma ThreePieces<T>(s: seq<T>, i: nat, j: nat)
    requires i <= j <= |s|
    ensures s == s[..i] + s[i..j] + s[j..]
  {
  }

  /** Extending a prefix of `ys` by one element, after a fixed `xs`. */
  lemma SnocPrefix<T>(xs: seq<T>, ys: seq<T>, i: nat)
    requires i < |ys|
    ensures xs + ys[..i + 1] == (xs + ys[..i]) + [ys[i]]
  {
    assert ys[..i + 1] == ys[..i] + [ys[i]];
  }

  /** The two paddings a re-split text starts with. */
  lemma LeadIsWs(lead: string)
    requires lead == "" || lead == " "
    ensures forall j :: 0 <= j < |lead| ==> IsWs(lead[j])
  {
  }

  lemma DotSplit(lead: string, x: string, more: string)
    ensures lead + (x + ". " + more) + "." == (lead + x) + ['.'] + (" " + more + ".")
  {
  }

  lemma ResplitLast(lead: string, x: string)
    requires forall j :: 0 <= j < |lead| ==> IsWs(lead[j])
    requires IsCleanSentence(x)
    ensures MapTrim(KeepNonBlank(SplitRuns((lead + x) + ['.'] + "", Terminators))) == [x]
  {
    assert SplitRuns("", Terminators) == [""];
    KeepNonBlankCons("", []);
    ResplitFirst(lead, x, "", []);
  }

  lemma ResplitEmpty(lead: string)
    requires forall j :: 0 <= j < |lead| ==> IsWs(lead[j])
    ensures MapTrim(KeepNonBlank(SplitRuns(lead + ['.'] + "", Terminators))) == []
  {
    SplitBlankThenDot(lead);
    KeepNonBlankBlanks(lead);
  }

  lemma SplitBlankThenDot(lead: string)
    requires forall j :: 0 <= j < |lead| ==> IsWs(lead[j])
    ensures SplitRuns(lead + ['.'] + "", Terminators) == [lead, ""]
  {
    WsNoTerminators(lead);
    SplitRunsStep(lead, '.', "", Terminators);
    SplitRunsEmpty(Terminators);
  }

  lemma SplitRunsEmpty(d: Delim)
    ensures SplitRuns("", d) == [""]
  {
    assert NextDelim("", 0, d) == 0;
  }

  lemma WsNoTerminators(lead: string)
    requires forall j :: 0 <= j < |lead| ==> IsWs(lead[j])
    ensures NoDelim(Terminators, lead)
  {
  }

  lemma KeepNonBlankBlanks(lead: string)
    requires forall j :: 0 <= j < |lead| ==> IsWs(lead[j])
    ensures KeepNonBlank([lead, ""]) == []
  {
    KeepNonBlankCons(lead, [""]);
    KeepNonBlankCons("", []);
  }

  lemma ResplitFirst(lead: string, x: string, rest: string, tail: seq<string>)
    requires forall j :: 0 <= j < |lead| ==> IsWs(lead[j])
    requires IsCleanSentence(x)
    requires |rest| == 0 || rest[0] == ' '
    requires MapTrim(KeepNonBlank(SplitRuns(rest, Terminators))) == tail
    ensures MapTrim(KeepNonBlank(SplitRuns((lead + x) + ['.'] + rest, Terminators))) == [x] + tail
  {
    SplitSentenceThenDot(lead, x, rest);
    KeepPadded(lead, x, SplitRuns(rest, Terminators));
    MapTrimPadded(lead, x, KeepNonBlank(SplitRuns(rest, Terminators)));
  }

  lemma SplitSentenceThenDot(lead: string, x: string, rest: string)
    requires IsCleanSentence(x)
    requires |rest| == 0 || rest[0] == ' '
    requires forall j :: 0 <= j < |lead| ==> IsWs(lead[j])
    ensures SplitRuns((lead + x) + ['.'] + rest, Terminators) == [lead + x] + SplitRuns(rest, Terminators)
  {
    assert NoDelim(Terminators, lead + x);
    SplitRunsStep(lead + x, '.', rest, Terminators);
  }

  lemma KeepPadded(lead: string, x: string, fields: seq<string>)
    requires IsCleanSentence(x)
    requires forall j :: 0 <= j < |lead| ==> IsWs(lead[j])
    ensures KeepNonBlank([lead + x] + fields) == [lead + x] + KeepNonBlank(fields)
  {
    TrimPadded(lead, x);
    KeepNonBlankCons(lead + x, fields);
  }

  lemma MapTrimPadded(lead: string, x: string, kept: seq<string>)
    requires IsCleanSentence(x)
    requires forall j :: 0 <= j < |lead| ==> IsWs(lead[j])
    ensures MapTrim([lead + x] + kept) == [x] + MapTrim(kept)
  {
    TrimPadded(lead, x);
    MapTrimCons(lead + x, kept);
  }

  /** Clean sentences joined by ". " and closed by "." split back into exactly those sentences
      (up to the leading space `trim` removes). */
  lemma ResplitSentences(xs: seq<string>)
    requires forall k :: 0 <= k < |xs| ==> IsCleanSentence(xs[k])
    ensures MapTrim(SplitSentences(Join(xs, ". ") + ".")) == xs
    ensures |SplitSentences(Join(xs, ". ") + ".")| == |xs|
  {
    assert "" + Join(xs, ". ") + "." == Join(xs, ". ") + ".";
    AllCleanOf(xs);
    ResplitPadded("", xs);
  }

  /** `lines.join('\n').split('\n')` gives the lines back when none of them contains a newline. */
  lemma {:induction false} SplitAtJoin(xs: seq<string>, c: char)
    requires |xs| > 0
    requires forall k :: 0 <= k < |xs| ==> c !in xs[k]
    ensures SplitAt(Join(xs, [c]), c) == xs
    decreases |xs|
  {
    if |xs| > 1 {
      var s := Join(xs, [c]);
      assert s == xs[0] + [c] + Join(xs[1..], [c]);
      assert IndexOfChar(s, c) == |xs[0]| by {
        assert s[|xs[0]|] == c;
        assert s[..|xs[0]|] == xs[0];
      }
      assert s[|xs[0]| + 1..] == Join(xs[1..], [c]);
      SplitAtJoin(xs[1..], c);
    }
  }

  /** Non-empty words free of whitespace, joined by single spaces. */
  predicate AreWords(ws: seq<string>) {
    forall k :: 0 <= k < |ws| ==> |ws[k]| > 0 && NoDelim(Whitespace, ws[k])
  }

  /** `words.join(' ').split(/\s+/)` gives the words back. */
  lemma {:induction false} SplitWsJoin(ws: seq<string>)
    requires |ws| > 0 && AreWords(ws)
    ensures SplitWs(Join(ws, " ")) == ws
    decreases |ws|
  {
    if |ws| == 1 {
      SplitRunsNoDelim(ws[0], Whitespace);
    } else {
      var rest := Join(ws[1..], " ");
      JoinStartsWith(ws[1..], " ");
      assert Join(ws, " ") == ws[0] + [' '] + rest;
      SplitRunsStep(ws[0], ' ', rest, Whitespace);
      SplitWsJoin(ws[1..]);
    }
  }

  lemma {:induction false} JoinStartsWith(xs: seq<string>, sep: string)
    requires |xs| > 0 && |xs[0]| > 0
    ensures |Join(xs, sep)| > 0 && Join(xs, sep)[0] == xs[0][0]
  {
  }

  lemma {:induction false} JoinEndsWith(xs: seq<string>, sep: string)
    requires |xs| > 0 && |xs[|xs| - 1]| > 0
    ensures |Join(xs, sep)| > 0 && Join(xs, sep)[|Join(xs, sep)| - 1] == xs[|xs| - 1][|xs[|xs| - 1]| - 1]
    decreases |xs|
  {
    if |xs| > 1 {
      JoinEndsWith(xs[1..], sep);
    }
  }

  /** Every character of a join comes from a part or from the separator. */
  lemma {:induction false} JoinChars(xs: seq<string>, sep: string, c: char)
    requires c in Join(xs, sep)
    ensures c in sep || exists k :: 0 <= k < |xs| && c in xs[k]
    decreases |xs|
  {
    if |xs| > 1 {
      var rest := Join(xs[1..], sep);
      assert Join(xs, sep) == xs[0] + sep + rest;
      if c in rest && c !in sep {
        JoinChars(xs[1..], sep, c);
        var k :| 0 <= k < |xs[1..]| && c in xs[1..][k];
        assert c in xs[k + 1];
      }
    }
  }

  // ---------------------------------------------------------------- lengths of whitespace fields

  function TotalLength(fields: seq<string>): nat {
    if |fields| == 0 then 0 else |fields[0]| + TotalLength(fields[1..])
  }

  lemma {:induction false} NonWsCountAppend(a: string, b: string)
    ensures NonWsCount(a + b) == NonWsCount(a) + NonWsCount(b)
    decreases |b|
  {
    if |b| > 0 {
      assert (a + b)[..|a + b| - 1] == a + b[..|b| - 1];
      NonWsCountAppend(a, b[..|b| - 1]);
    } else {
      assert a + b == a;
    }
  }

  /** A prefix free of whitespace counts fully. */
  lemma {:induction false} NonWsCountPrefix(s: string, i: nat)
    requires i <= |s|
    requires forall k :: 0 <= k < i ==> !IsWs(s[k])
    ensures NonWsCount(s[..i]) == i
    decreases i
  {
    if i > 0 {
      NonWsCountPrefix(s, i - 1);
      assert s[..i][..i - 1] == s[..i - 1];
    }
  }

  /** A run of whitespace counts nothing. */
  lemma {:induction false} NonWsCountGap(s: string, i: nat, j: nat)
    requires i <= j <= |s|
    requires forall k :: i <= k < j ==> IsWs(s[k])
    ensures NonWsCount(s[i..j]) == 0
    decreases j - i
  {
    if j > i {
      NonWsCountGap(s, i, j - 1);
      assert s[i..j][..j - 1 - i] == s[i..j - 1];
    }
  }

  lemma {:induction false} SplitWsLength(s: string)
    ensures TotalLength(SplitWs(s)) == NonWsCount(s)
    decreases |s|
  {
    var i := NextDelim(s, 0, Whitespace);
    if i == |s| {
      NonWsCountPrefix(s, i);
      assert s[..i] == s;
    } else {
      var j := SkipDelims(s, i, Whitespace);
      NonWsPieces(s, i, j);
      SplitWsLength(s[j..]);
      var rest := SplitWs(s[j..]);
      assert SplitWs(s) == [s[..i]] + rest;
      assert ([s[..i]] + rest)[1..] == rest;
    }
  }

  /** A field of `i` non-whitespace characters, then a run of whitespace up to `j`. */
  lemma NonWsPieces(s: string, i: nat, j: nat)
    requires i <= j <= |s|
    requires forall k :: 0 <= k < i ==> !IsDelim(Whitespace, s[k])
    requires forall k :: i <= k < j ==> IsDelim(Whitespace, s[k])
    ensures NonWsCount(s) == i + NonWsCount(s[j..])
  {
    ThreePieces(s, i, j);
    NonWsCountAppend(s[..i] + s[i..j], s[j..]);
    NonWsCountAppend(s[..i], s[i..j]);
    NonWsCountPrefix(s, i);
    NonWsCountGap(s, i, j);
  }

  /** Splitting a trimmed, non-empty text on whitespace runs never yields an empty field. */
  lemma {:induction false} SplitWsOfTrimmed(t: string)
    requires |t| > 0 && IsTrimmed(t)
    ensures AreWords(SplitWs(t))
    decreases |t|
  {
    var i := NextDelim(t, 0, Whitespace);
    if i < |t| {
      var j := SkipDelims(t, i, Whitespace);
      assert j < |t| by {
        assert !IsWs(t[|t| - 1]);
      }
      SplitWsOfTrimmed(t[j..]);
    }
  }

  // ---------------------------------------------------------------- shapes of trimmed pieces

  /** A non-blank sentence, once trimmed, is a clean sentence. */
  lemma TrimmedSentenceClean(s: string)
    requires |Trim(s)| > 0 && NoDelim(Terminators, s)
    ensures IsCleanSentence(Trim(s))
  {
    TrimKeepsNoDelim(s, Terminators);
  }

  /** Words joined by single spaces are already trimmed. */
  lemma JoinedWordsTrimmed(ws: seq<string>)
    requires |ws| > 0 && AreWords(ws)
    ensures IsTrimmed(Join(ws, " "))
  {
    JoinStartsWith(ws, " ");
    JoinEndsWith(ws, " ");
    assert !IsWs(ws[0][0]);
    var l := ws[|ws| - 1];
    assert !IsWs(l[|l| - 1]);
  }

  // ---------------------------------------------------------------- characters a split cannot introduce

  lemma {:induction false} SplitRunsKeepsAbsent(s: string, d: Delim, c: char)
    requires c !in s
    ensures forall k :: 0 <= k < |SplitRuns(s, d)| ==> c !in SplitRuns(s, d)[k]
    decreases |s|
  {
    var i := NextDelim(s, 0, d);
    if i < |s| {
      var j := SkipDelims(s, i, d);
      assert forall x :: x in s[j..] ==> x in s;
      assert forall x :: x in s[..i] ==> x in s;
      SplitRunsKeepsAbsent(s[j..], d, c);
    }
  }

  lemma {:induction false} KeepNonBlankKeepsAbsent(fields: seq<string>, c: char)
    requires forall k :: 0 <= k < |fields| ==> c !in fields[k]
    ensures forall k :: 0 <= k < |KeepNonBlank(fields)| ==> c !in KeepNonBlank(fields)[k]
    decreases |fields|
  {
    if |fields| > 0 {
      KeepNonBlankKeepsAbsent(fields[1..], c);
    }
  }

  /** A character absent from the text is absent from each of its sentences. */
  lemma SentencesKeepAbsent(s: string, c: char)
    requires c !in s
    ensures forall k :: 0 <= k < |SplitSentences(s)| ==> c !in SplitSentences(s)[k]
  {
    SplitRunsKeepsAbsent(s, Terminators, c);
    KeepNonBlankKeepsAbsent(SplitRuns(s, Terminators), c);
  }

  lemma {:induction false} JoinKeepsAbsent(xs: seq<string>, sep: string, c: char)
    requires c !in sep && forall k :: 0 <= k < |xs| ==> c !in xs[k]
    ensures c !in Join(xs, sep)
    decreases |xs|
  {
    if |xs| > 1 {
      JoinKeepsAbsent(xs[1..], sep, c);
    }
  }

  /** Free of sentence terminators means free of each of the three characters. */
  lemma NoTerminatorChars(x: string)
    ensures NoDelim(Terminators, x) <==> '.' !in x && '!' !in x && '?' !in x
  {
  }

  lemma JoinNoTerminators(xs: seq<string>, sep: string)
    requires NoDelim(Terminators, sep)
    requires forall k :: 0 <= k < |xs| ==> NoDelim(Terminators, xs[k])
    ensures NoDelim(Terminators, Join(xs, sep))
  {
    NoTerminatorChars(sep);
    forall k | 0 <= k < |xs| ensures '.' !in xs[k] && '!' !in xs[k] && '?' !in xs[k] {
      NoTerminatorChars(xs[k]);
    }
    JoinKeepsAbsent(xs, sep, '.');
    JoinKeepsAbsent(xs, sep, '!');
    JoinKeepsAbsent(xs, sep, '?');
    NoTerminatorChars(Join(xs, sep));
  }

  /** The whitespace fields of a text free of terminators are free of them too. */
  lemma SplitWsNoTerminators(t: string)
    requires NoDelim(Terminators, t)
    ensures forall k :: 0 <= k < |SplitWs(t)| ==> NoDelim(Terminators, SplitWs(t)[k])
  {
    NoTerminatorChars(t);
    SplitRunsKeepsAbsent(t, Whitespace, '.');
    SplitRunsKeepsAbsent(t, Whitespace, '!');
    SplitRunsKeepsAbsent(t, Whitespace, '?');
    forall k | 0 <= k < |SplitWs(t)| ensures NoDelim(Terminators, SplitWs(t)[k]) {
      NoTerminatorChars(SplitWs(t)[k]);
    }
  }

  lemma {:induction false} JoinLength(xs: seq<string>, sep: string)
    requires |xs| > 0
    ensures |Join(xs, sep)| == TotalLength(xs) + (|xs| - 1) * |sep|
    decreases |xs|
  {
    if |xs| > 1 {
      JoinLength(xs[1..], sep);
    }
  }

  // ---------------------------------------------------------------- sequences without repeats

  /** Occurrences of `w` in `ws`. */
  function Occurrences(ws: seq<string>, w: string): nat {
    if |ws| == 0 then 0
    else Occurrences(ws[..|ws| - 1], w) + (if ws[|ws| - 1] == w then 1 else 0)
  }

  lemma {:induction false} OccurrencesPositive(ws: seq<string>, w: string)
    ensures Occurrences(ws, w) > 0 <==> w in ws
    decreases |ws|
  {
    if |ws| > 0 {
      assert ws == ws[..|ws| - 1] + [ws[|ws| - 1]];
      OccurrencesPositive(ws[..|ws| - 1], w);
    }
  }

  predicate Distinct<T(==)>(s: seq<T>) {
    forall i, j :: 0 <= i < j < |s| ==> s[i] != s[j]
  }

  lemma DistinctConcat<T>(a: seq<T>, b: seq<T>)
    requires Distinct(a) && Distinct(b)
    requires forall x :: x in a ==> x !in b
    ensures Distinct(a + b)
  {
    forall i, j | 0 <= i < j < |a + b|
      ensures (a + b)[i] != (a + b)[j]
    {
      if i < |a| && j >= |a| {
        assert (a + b)[i] in a;
        assert (a + b)[j] == b[j - |a|];
      }
    }
  }
}
