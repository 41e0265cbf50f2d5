/** The extension popup (popup.js): defaulting of the stored settings, the snippet list, the
    statistics reset, and the writing-style profile built from a sample text. Storage, dialogs
    and the clock are not modelled: what they supply is passed in. */
module Popup {
  import opened Text
  import opened Numerals
  import opened Analysis

  // ---------------------------------------------------------------- loadSettings

  /** The stored values the settings can hold; `Obj` stands for any object (the style
      profile). A key missing from storage reads as `Undefined`. */
  datatype JsValue = Undefined | Null | Bool(b: bool) | Num(n: int) | Str(s: string) | Obj

  /** JavaScript truthiness. */
  predicate Truthy(v: JsValue) {
    match v
    case Undefined => false
    case Null => false
    case Bool(b) => b
    case Num(n) => n != 0
    case Str(s) => |s| > 0
    case Obj => true
  }

  datatype Settings = Settings(
    privacyMode: JsValue,
    theme: JsValue,
    whisperMode: JsValue,
    autoComplete: JsValue,
    language: JsValue,
    styleProfile: JsValue)

  /** `v || d`. */
  function Or(v: JsValue, d: JsValue): (r: JsValue)
    ensures Truthy(v) ==> r == v
    ensures !Truthy(v) ==> r == d
  {
    if Truthy(v) then v else d
  }

  /** `currentSettings` built from what storage returned: privacy mode on only when nothing is
      stored (an explicit false is kept), theme 'auto' and language 'en' for falsy values,
      the two switches false and the style profile null for falsy values. */
  function LoadSettings(data: Settings): (r: Settings)
    ensures data.privacyMode.Undefined? ==> r.privacyMode == Bool(true)
    ensures !data.privacyMode.Undefined? ==> r.privacyMode == data.privacyMode
    ensures r.theme == (if Truthy(data.theme) then data.theme else Str("auto"))
    ensures r.whisperMode == (if Truthy(data.whisperMode) then data.whisperMode else Bool(false))
    ensures r.autoComplete == (if Truthy(data.autoComplete) then data.autoComplete else Bool(false))
    ensures r.language == (if Truthy(data.language) then data.language else Str("en"))
    ensures r.styleProfile == (if Truthy(data.styleProfile) then data.styleProfile else Null)
  {
    Settings(
      if data.privacyMode != Undefined then data.privacyMode else Bool(true),
      Or(data.theme, Str("auto")),
      Or(data.whisperMode, Bool(false)),
      Or(data.autoComplete, Bool(false)),
      Or(data.language, Str("en")),
      Or(data.styleProfile, Null))
  }

  /** Loading settings that were already loaded changes nothing, and the loaded theme and
      language are never falsy. */
  lemma LoadSettingsIdempotent(data: Settings)
    ensures LoadSettings(LoadSettings(data)) == LoadSettings(data)
    ensures Truthy(LoadSettings(data).theme) && Truthy(LoadSettings(data).language)
    ensures !LoadSettings(data).privacyMode.Undefined?
  {
  }

  // ---------------------------------------------------------------- saveSnippet, deleteSnippet

  datatype Snippet = Snippet(title: string, content: string, createdAt: int)

  /** The list after `saveSnippet` with the given form fields and clock value. */
  function Saved(list: seq<Snippet>, title: string, content: string, now: int): seq<Snippet> {
    var t := Trim(title);
    var c := Trim(content);
    if |t| == 0 || |c| == 0 then list else list + [Snippet(t, c, now)]
  }

  /** The position `splice(start, 1)` removes at: a negative start counts from the end and is
      clamped at 0, a start past the end is clamped to the length. */
  function SpliceStart(len: nat, start: int): (k: nat)
    ensures k <= len
    ensures 0 <= start <= len ==> k == start
    ensures -(len as int) <= start < 0 ==> k as int == len as int + start
  {
    if start < 0 then (if len + start < 0 then 0 else len + start)
    else if start > len then len
    else start
  }

  /** The list after `splice(start, 1)`. */
  function Spliced(list: seq<Snippet>, start: int): seq<Snippet> {
    var k := SpliceStart(|list|, start);
    if k < |list| then list[..k] + list[k + 1..] else list
  }

  /** The popup's snippet list. */
  class SnippetStore {
    var snippets: seq<Snippet>

    constructor (stored: seq<Snippet>)
      ensures snippets == stored
    {
      snippets := stored;
    }

    /** Appends the trimmed title and content unless either is blank. */
    method SaveSnippet(title: string, content: string, now: int)
      modifies this
      ensures snippets == Saved(old(snippets), title, content, now)
    {
      var t := Trim(title);
      var c := Trim(content);
      if |t| == 0 || |c| == 0 {
        return;
      }
      snippets := snippets + [Snippet(t, c, now)];
    }

    /** Removes the entry at `index` when the user confirms. */
    method DeleteSnippet(index: int, confirmed: bool)
      modifies this
      ensures snippets == if confirmed then Spliced(old(snippets), index) else old(snippets)
    {
      if confirmed {
        var k := SpliceStart(|snippets|, index);
        if k < |snippets| {
          snippets := snippets[..k] + snippets[k + 1..];
        }
      }
    }
  }

  /** A blank title or content leaves the list as it was; otherwise exactly one entry is added
      at the end, holding the trimmed, non-empty fields, and the earlier entries are kept. */
  lemma SavedEffect(list: seq<Snippet>, title: string, content: string, now: int)
    ensures var r := Saved(list, title, content, now);
      && ((|Trim(title)| == 0 || |Trim(content)| == 0) ==> r == list)
      && ((|Trim(title)| > 0 && |Trim(content)| > 0) ==>
        && |r| == |list| + 1
        && r[..|list|] == list
        && r[|list|] == Snippet(Trim(title), Trim(content), now)
        && IsTrimmed(r[|list|].title) && IsTrimmed(r[|list|].content))
  {
    TrimOfTrimmed(Trim(title));
    TrimOfTrimmed(Trim(content));
  }

  /** Deleting at a valid index removes exactly that entry: one fewer entry, the others in
      their order, and the removed one accounted for in the multiset. An index past the end
      changes nothing, and -1 removes the last entry. */
  lemma SplicedEffect(list: seq<Snippet>, index: int)
    ensures var r := Spliced(list, index);
      && (0 <= index < |list| ==>
        && |r| == |list| - 1
        && (forall k :: 0 <= k < index ==> r[k] == list[k])
        && (forall k :: index <= k < |r| ==> r[k] == list[k + 1])
        && multiset(r) + multiset{list[index]} == multiset(list))
      && (index >= |list| ==> r == list)
      && (|list| > 0 && index == -1 ==> r == list[..|list| - 1])
  {
    if 0 <= index < |list| {
      RemoveAt(list, index);
    }
    if |list| > 0 && index == -1 {
      assert list[..|list| - 1] + list[|list|..] == list[..|list| - 1];
    }
  }

  lemma RemoveAt(list: seq<Snippet>, k: nat)
    requires k < |list|
    ensures var r := list[..k] + list[k + 1..];
      && |r| == |list| - 1
      && (forall i :: 0 <= i < k ==> r[i] == list[i])
      && (forall i :: k <= i < |r| ==> r[i] == list[i + 1])
      && multiset(r) + multiset{list[k]} == multiset(list)
  {
    assert list == list[..k] + [list[k]] + list[k + 1..];
  }

  // ---------------------------------------------------------------- resetStats

  /** After a confirmed reset the stored record is all zeros with the three tones at zero;
      without confirmation it is kept. */
  function ResetStats(confirmed: bool, current: WritingStats): (r: WritingStats)
    ensures confirmed ==> r.totalWords == 0 && r.sessionsCount == 0 && r.avgSentenceLength == 0
    ensures confirmed ==> r.toneDistribution == map["formal" := 0, "casual" := 0, "neutral" := 0]
    ensures !confirmed ==> r == current
  {
    if confirmed then EmptyStats() else current
  }

  // ---------------------------------------------------------------- extractCommonPhrases

  /** `sentence.toLowerCase().trim().split(/\s+/)`. */
  function SentenceWords(sentence: string): seq<string> {
    SplitWs(Trim(Lower(sentence)))
  }

  /** `words.slice(i, i + 2).join(' ')` for each `i` below `words.length - 1`. */
  function Bigrams(words: seq<string>): (r: seq<string>)
    ensures |r| == if |words| == 0 then 0 else |words| - 1
    ensures forall i :: 0 <= i < |r| ==> r[i] == words[i] + " " + words[i + 1]
  {
    if |words| <= 1 then []
    else seq(|words| - 1, i requires 0 <= i < |words| - 1 => words[i] + " " + words[i + 1])
  }

  /** The bigrams of all the sentences, sentence after sentence. */
  function AllBigrams(sentences: seq<string>): seq<string> {
    if |sentences| == 0 then []
    else AllBigrams(sentences[..|sentences| - 1]) + Bigrams(SentenceWords(sentences[|sentences| - 1]))
  }

  /** The `phrases` object after counting `ps`. */
  function PhraseCounts(ps: seq<string>): map<string, nat> {
    if |ps| == 0 then map[]
    else
      var m := PhraseCounts(ps[..|ps| - 1]);
      var p := ps[|ps| - 1];
      m[p := (if p in m then m[p] else 0) + 1]
  }

  /** The order in which `phrases` gains its keys. */
  function PhraseOrder(ps: seq<string>): seq<string> {
    if |ps| == 0 then []
    else
      var o := PhraseOrder(ps[..|ps| - 1]);
      var p := ps[|ps| - 1];
      if p in o then o else o + [p]
  }

  /** Each phrase is a key once, in order of first occurrence, counted as often as it occurs. */
  lemma {:induction false} PhraseTable(ps: seq<string>)
    ensures Distinct(PhraseOrder(ps))
    ensures forall p :: p in PhraseOrder(ps) <==> p in ps
    ensures forall p :: p in PhraseCounts(ps) <==> p in ps
    ensures forall p :: p in PhraseCounts(ps) ==> PhraseCounts(ps)[p] == Occurrences(ps, p)
    decreases |ps|
  {
    if |ps| > 0 {
      var p := ps[|ps| - 1];
      assert ps == ps[..|ps| - 1] + [p];
      PhraseTable(ps[..|ps| - 1]);
      OccurrencesPositive(ps[..|ps| - 1], p);
      if p !in PhraseOrder(ps[..|ps| - 1]) {
        DistinctConcat(PhraseOrder(ps[..|ps| - 1]), [p]);
      }
    }
  }

  lemma PhraseKeyKnown(ps: seq<string>, p: string)
    ensures (p in PhraseCounts(ps)) == (p in PhraseOrder(ps))
  {
    PhraseTable(ps);
  }

  /** Counting one more phrase. */
  lemma PhraseStep(done: seq<string>, p: string)
    ensures var m := PhraseCounts(done);
      PhraseCounts(done + [p]) == m[p := (if p in m then m[p] else 0) + 1]
    ensures PhraseOrder(done + [p]) ==
      if p in PhraseCounts(done) then PhraseOrder(done) else PhraseOrder(done) + [p]
  {
    assert (done + [p])[..|done|] == done;
    PhraseKeyKnown(done, p);
  }

  lemma AllBigramsStep(sentences: seq<string>, n: nat)
    requires n < |sentences|
    ensures AllBigrams(sentences[..n + 1]) == AllBigrams(sentences[..n]) + Bigrams(SentenceWords(sentences[n]))
  {
    assert sentences[..n + 1][..n] == sentences[..n];
  }

  /** The inner loop: counts the bigrams of one sentence's words on top of `before`. */
  method CountSentence(phrases0: map<string, nat>, order0: seq<string>, ghost before: seq<string>, words: seq<string>)
    returns (phrases: map<string, nat>, order: seq<string>)
    requires phrases0 == PhraseCounts(before) && order0 == PhraseOrder(before)
    ensures phrases == PhraseCounts(before + Bigrams(words)) && order == PhraseOrder(before + Bigrams(words))
  {
    phrases, order := phrases0, order0;
    ghost var pairs := Bigrams(words);
    var i := 0;
    assert before + pairs[..0] == before;
    while i < |words| - 1
      invariant 0 <= i <= |pairs|
      invariant phrases == PhraseCounts(before + pairs[..i])
      invariant order == PhraseOrder(before + pairs[..i])
    {
      var phrase := words[i] + " " + words[i + 1];
      assert phrase == pairs[i];
      SnocPrefix(before, pairs, i);
      PhraseStep(before + pairs[..i], phrase);
      if phrase !in phrases {
        order := order + [phrase];
      }
      phrases := phrases[phrase := (if phrase in phrases then phrases[phrase] else 0) + 1];
      i := i + 1;
    }
    assert pairs[..i] == pairs;
  }

  /** The counting loops: the `phrases` object as a map, and the order of its keys. */
  method CountPhrases(sentences: seq<string>) returns (phrases: map<string, nat>, order: seq<string>)
    ensures phrases == PhraseCounts(AllBigrams(sentences)) && order == PhraseOrder(AllBigrams(sentences))
  {
    phrases := map[];
    order := [];
    var si := 0;
    while si < |sentences|
      invariant 0 <= si <= |sentences|
      invariant phrases == PhraseCounts(AllBigrams(sentences[..si]))
      invariant order == PhraseOrder(AllBigrams(sentences[..si]))
    {
      var words := SentenceWords(sentences[si]);
      phrases, order := CountSentence(phrases, order, AllBigrams(sentences[..si]), words);
      AllBigramsStep(sentences, si);
      si := si + 1;
    }
    assert sentences[..si] == sentences;
  }

  /** An `Object.entries` pair. */
  type Entry = (string, nat)

  /** `Object.entries(phrases)` for keys listed in `keys`. */
  function EntriesOf(keys: seq<string>, m: map<string, nat>): (es: seq<Entry>)
    ensures |es| == |keys|
  {
    seq(|keys|, i requires 0 <= i < |keys| => (keys[i], if keys[i] in m then m[keys[i]] else 0))
  }

  /** Places `e` before the first entry whose count is not larger. */
  function InsertByCount(e: Entry, sorted: seq<Entry>): seq<Entry> {
    if |sorted| == 0 || sorted[0].1 <= e.1 then [e] + sorted
    else [sorted[0]] + InsertByCount(e, sorted[1..])
  }

  /** `sort((a, b) => b[1] - a[1])`: a stable sort by decreasing count. */
  function SortByCount(es: seq<Entry>): seq<Entry> {
    if |es| == 0 then [] else InsertByCount(es[0], SortByCount(es[1..]))
  }

  predicate NonIncreasing(es: seq<Entry>) {
    forall i, j :: 0 <= i < j < |es| ==> es[i].1 >= es[j].1
  }

  /** The entries with count `c`, in order. */
  function WithCount(es: seq<Entry>, c: nat): seq<Entry> {
    if |es| == 0 then []
    else (if es[0].1 == c then [es[0]] else []) + WithCount(es[1..], c)
  }

  /** The phrase of each entry. */
  function EntryKeys(es: seq<Entry>): (ks: seq<string>)
    ensures |ks| == |es|
    ensures forall i :: 0 <= i < |es| ==> ks[i] == es[i].0
  {
    seq(|es|, i requires 0 <= i < |es| => es[i].0)
  }

  /** `Object.entries(phrases).sort(...).slice(0, 5).map(([phrase]) => phrase)`. */
  function TopPhrases(sentences: seq<string>): seq<string> {
    var ps := AllBigrams(sentences);
    EntryKeys(Take(SortByCount(EntriesOf(OwnKeys(PhraseOrder(ps)), PhraseCounts(ps))), 5))
  }

  /** Counts the bigrams of every sentence, then keeps the five most frequent. */
  method ExtractCommonPhrases(sentences: seq<string>) returns (top: seq<string>)
    ensures top == TopPhrases(sentences)
  {
    var phrases, order := CountPhrases(sentences);
    var entries := EntriesOf(OwnKeys(order), phrases);
    top := EntryKeys(Take(SortByCount(entries), 5));
  }

  lemma {:induction false} InsertPermutes(e: Entry, sorted: seq<Entry>)
    ensures multiset(InsertByCount(e, sorted)) == multiset(sorted) + multiset{e}
    decreases |sorted|
  {
    if |sorted| > 0 && sorted[0].1 > e.1 {
      InsertPermutes(e, sorted[1..]);
      assert sorted == [sorted[0]] + sorted[1..];
    }
  }

  lemma {:induction false} SortPermutes(es: seq<Entry>)
    ensures multiset(SortByCount(es)) == multiset(es)
    decreases |es|
  {
    if |es| > 0 {
      SortPermutes(es[1..]);
      InsertPermutes(es[0], SortByCount(es[1..]));
      assert es == [es[0]] + es[1..];
    }
  }

  /** An entry no smaller than every entry of an ordered list may go in front of it. */
  lemma ConsOrdered(h: Entry, rest: seq<Entry>)
    requires NonIncreasing(rest)
    requires forall k :: 0 <= k < |rest| ==> rest[k].1 <= h.1
    ensures NonIncreasing([h] + rest)
  {
    var r := [h] + rest;
    forall i, j | 0 <= i < j < |r|
      ensures r[i].1 >= r[j].1
    {
      assert r[j] == rest[j - 1];
      if i > 0 {
        assert r[i] == rest[i - 1];
      }
    }
  }

  lemma {:induction false} InsertBounded(e: Entry, sorted: seq<Entry>, b: nat)
    requires e.1 <= b
    requires forall k :: 0 <= k < |sorted| ==> sorted[k].1 <= b
    ensures forall k :: 0 <= k < |InsertByCount(e, sorted)| ==> InsertByCount(e, sorted)[k].1 <= b
    decreases |sorted|
  {
    if |sorted| > 0 && sorted[0].1 > e.1 {
      InsertBounded(e, sorted[1..], b);
    }
  }

  lemma {:induction false} InsertKeepsOrder(e: Entry, sorted: seq<Entry>)
    requires NonIncreasing(sorted)
    ensures NonIncreasing(InsertByCount(e, sorted))
    decreases |sorted|
  {
    if |sorted| == 0 || sorted[0].1 <= e.1 {
      ConsOrdered(e, sorted);
    } else {
      var tail := sorted[1..];
      assert NonIncreasing(tail);
      InsertKeepsOrder(e, tail);
      InsertBounded(e, tail, sorted[0].1);
      ConsOrdered(sorted[0], InsertByCount(e, tail));
    }
  }

  lemma {:induction false} SortOrders(es: seq<Entry>)
    ensures NonIncreasing(SortByCount(es))
    decreases |es|
  {
    if |es| > 0 {
      SortOrders(es[1..]);
      InsertKeepsOrder(es[0], SortByCount(es[1..]));
    }
  }

  lemma {:induction false} InsertWithCount(e: Entry, sorted: seq<Entry>, c: nat)
    ensures WithCount(InsertByCount(e, sorted), c) == (if e.1 == c then [e] else []) + WithCount(sorted, c)
    decreases |sorted|
  {
    var mine: seq<Entry> := if e.1 == c then [e] else [];
    if |sorted| == 0 || sorted[0].1 <= e.1 {
      var r := [e] + sorted;
      assert r[0] == e && r[1..] == sorted;
      assert WithCount(r, c) == mine + WithCount(sorted, c);
    } else {
      var head: seq<Entry> := if sorted[0].1 == c then [sorted[0]] else [];
      var rest := InsertByCount(e, sorted[1..]);
      InsertWithCount(e, sorted[1..], c);
      var r := [sorted[0]] + rest;
      assert r[0] == sorted[0] && r[1..] == rest;
      assert WithCount(r, c) == head + (mine + WithCount(sorted[1..], c));
      assert WithCount(sorted, c) == head + WithCount(sorted[1..], c);
      assert head == [] || mine == [];
    }
  }

  /** The sort is stable: the entries of each count keep their relative order. */
  lemma {:induction false} SortStable(es: seq<Entry>, c: nat)
    ensures WithCount(SortByCount(es), c) == WithCount(es, c)
    decreases |es|
  {
    if |es| > 0 {
      SortStable(es[1..], c);
      InsertWithCount(es[0], SortByCount(es[1..]), c);
    }
  }

  /** Bigram keys hold a space, so none is an array index and `Object.entries` lists them in
      the order they were first counted. */
  lemma PhraseKeysInOrder(ps: seq<string>)
    requires forall k :: 0 <= k < |ps| ==> ' ' in ps[k]
    ensures OwnKeys(PhraseOrder(ps)) == PhraseOrder(ps)
  {
    var order := PhraseOrder(ps);
    PhraseTable(ps);
    forall i | 0 <= i < |order|
      ensures !IsArrayIndex(order[i])
    {
      assert order[i] in ps;
      SpacedKeyIsNamed(order[i]);
    }
    OwnKeysNoIndices(order);
  }

  lemma {:induction false} BigramsSpaced(sentences: seq<string>)
    ensures forall k :: 0 <= k < |AllBigrams(sentences)| ==> ' ' in AllBigrams(sentences)[k]
    decreases |sentences|
  {
    if |sentences| > 0 {
      BigramsSpaced(sentences[..|sentences| - 1]);
      var ws := SentenceWords(sentences[|sentences| - 1]);
      forall k | 0 <= k < |Bigrams(ws)|
        ensures ' ' in Bigrams(ws)[k]
      {
        assert Bigrams(ws)[k][|ws[k]|] == ' ';
      }
    }
  }

  /** `p` is a bigram of the sentence `s`. */
  predicate BigramOf(s: string, p: string) {
    p in Bigrams(SentenceWords(s))
  }

  /** The lists one after the other. */
  function Flatten(xss: seq<seq<string>>): seq<string> {
    if |xss| == 0 then [] else Flatten(xss[..|xss| - 1]) + xss[|xss| - 1]
  }

  lemma {:induction false} FlattenMembers(xss: seq<seq<string>>, p: string)
    ensures p in Flatten(xss) <==> exists j :: 0 <= j < |xss| && p in xss[j]
    decreases |xss|
  {
    if |xss| > 0 {
      var n := |xss| - 1;
      FlattenMembers(xss[..n], p);
      assert forall j :: 0 <= j < n ==> xss[..n][j] == xss[j];
    }
  }

  /** The bigrams of each sentence, sentence by sentence. */
  function SentenceBigrams(sentences: seq<string>): (r: seq<seq<string>>)
    ensures |r| == |sentences|
    ensures forall j :: 0 <= j < |r| ==> r[j] == Bigrams(SentenceWords(sentences[j]))
  {
    seq(|sentences|, j requires 0 <= j < |sentences| => Bigrams(SentenceWords(sentences[j])))
  }

  lemma {:induction false} AllBigramsFlatten(sentences: seq<string>)
    ensures AllBigrams(sentences) == Flatten(SentenceBigrams(sentences))
    decreases |sentences|
  {
    if |sentences| > 0 {
      var n := |sentences| - 1;
      AllBigramsFlatten(sentences[..n]);
      assert SentenceBigrams(sentences)[..n] == SentenceBigrams(sentences[..n]);
    }
  }

  /** A phrase is counted exactly when it is a bigram of one of the sentences: bigrams never
      span two sentences, and a one-word sentence adds none. */
  lemma BigramsOfSentences(sentences: seq<string>, p: string)
    ensures p in AllBigrams(sentences) <==> exists j :: 0 <= j < |sentences| && BigramOf(sentences[j], p)
  {
    var xss := SentenceBigrams(sentences);
    AllBigramsFlatten(sentences);
    FlattenMembers(xss, p);
    assert forall j :: 0 <= j < |sentences| ==> (BigramOf(sentences[j], p) <==> p in xss[j]);
  }

  /** Every entry of `es` carries the count of its phrase among `ps`, and is a phrase of `ps`. */
  predicate CountsOf(es: seq<Entry>, ps: seq<string>) {
    forall e :: e in es ==> e.0 in ps && e.1 == Occurrences(ps, e.0)
  }

  lemma EntriesCounted(ps: seq<string>)
    ensures var keys := OwnKeys(PhraseOrder(ps));
      var es := EntriesOf(keys, PhraseCounts(ps));
      && CountsOf(es, ps)
      && forall p :: p in ps ==> (p, Occurrences(ps, p)) in es
  {
    var order := PhraseOrder(ps);
    var keys := OwnKeys(order);
    var es := EntriesOf(keys, PhraseCounts(ps));
    PhraseTable(ps);
    OwnKeysDistinct(order);
    forall p | p in ps
      ensures (p, Occurrences(ps, p)) in es
    {
      var i :| 0 <= i < |keys| && keys[i] == p;
      assert es[i] == (p, Occurrences(ps, p));
    }
  }

  /** The sorted entries: each phrase once with its count, most frequent first. */
  lemma SortedEntries(ps: seq<string>)
    ensures var sorted := SortByCount(EntriesOf(OwnKeys(PhraseOrder(ps)), PhraseCounts(ps)));
      && CountsOf(sorted, ps)
      && NonIncreasing(sorted)
      && forall p :: p in ps ==> (p, Occurrences(ps, p)) in sorted
  {
    var es := EntriesOf(OwnKeys(PhraseOrder(ps)), PhraseCounts(ps));
    var sorted := SortByCount(es);
    EntriesCounted(ps);
    SortPermutes(es);
    SortOrders(es);
    forall e | e in sorted
      ensures e.0 in ps && e.1 == Occurrences(ps, e.0)
    {
      assert e in multiset(es);
    }
    forall p | p in ps
      ensures (p, Occurrences(ps, p)) in sorted
    {
      assert (p, Occurrences(ps, p)) in multiset(es);
    }
  }

  /** The first five phrases of a complete, sorted table of counts. */
  lemma TopOfSorted(sorted: seq<Entry>, ps: seq<string>)
    requires CountsOf(sorted, ps) && NonIncreasing(sorted)
    requires forall p :: p in ps ==> (p, Occurrences(ps, p)) in sorted
    ensures var r := EntryKeys(Take(sorted, 5));
      && |r| <= 5
      && (forall i :: 0 <= i < |r| ==> r[i] in ps)
      && (forall i, j :: 0 <= i < j < |r| ==> Occurrences(ps, r[i]) >= Occurrences(ps, r[j]))
      && (forall p :: p in ps && p !in r ==> |r| == 5 && Occurrences(ps, p) <= Occurrences(ps, r[4]))
  {
    var r := EntryKeys(Take(sorted, 5));
    forall i | 0 <= i < |r|
      ensures r[i] == sorted[i].0 && r[i] in ps && sorted[i].1 == Occurrences(ps, r[i])
    {
      assert sorted[i] in sorted;
    }
    forall p | p in ps && p !in r
      ensures |r| == 5 && Occurrences(ps, p) <= Occurrences(ps, r[4])
    {
      var j :| 0 <= j < |sorted| && sorted[j] == (p, Occurrences(ps, p));
      assert j >= 5;
    }
  }

  /** At most five phrases, each a counted bigram, in non-increasing order of frequency; a
      counted bigram left out means five were kept, none less frequent than it. */
  lemma TopPhrasesMeaning(sentences: seq<string>)
    ensures var ps := AllBigrams(sentences);
      var r := TopPhrases(sentences);
      && |r| <= 5
      && (forall i :: 0 <= i < |r| ==> r[i] in ps)
      && (forall i, j :: 0 <= i < j < |r| ==> Occurrences(ps, r[i]) >= Occurrences(ps, r[j]))
      && (forall p :: p in ps && p !in r ==> |r| == 5 && Occurrences(ps, p) <= Occurrences(ps, r[4]))
  {
    var ps := AllBigrams(sentences);
    SortedEntries(ps);
    TopOfSorted(SortByCount(EntriesOf(OwnKeys(PhraseOrder(ps)), PhraseCounts(ps))), ps);
  }

  /** Ties keep the order in which the phrases were first counted: the sort is stable, and
      the keys, all holding a space, are listed in insertion order. */
  lemma TopPhrasesTies(sentences: seq<string>, c: nat)
    ensures var ps := AllBigrams(sentences);
      var order := PhraseOrder(ps);
      WithCount(SortByCount(EntriesOf(OwnKeys(order), PhraseCounts(ps))), c)
        == WithCount(EntriesOf(order, PhraseCounts(ps)), c)
  {
    var ps := AllBigrams(sentences);
    BigramsSpaced(sentences);
    PhraseKeysInOrder(ps);
    SortStable(EntriesOf(OwnKeys(PhraseOrder(ps)), PhraseCounts(ps)), c);
  }

  // ---------------------------------------------------------------- analyzeWritingStyle

  /** `Math.round(a / b)`: the nearest whole number, halves rounded up. */
  function RoundDiv(a: nat, b: nat): nat
    requires b > 0
  {
    (2 * a + b) / (2 * b)
  }

  /** A lower and an upper bound on a quotient, from bounds on its numerator. */
  lemma QuotientBounds(a: real, b: real, lo: real, hi: real)
    requires b > 0.0 && lo * b <= a < hi * b
    ensures lo <= a / b < hi
  {
    var x := a / b;
    assert x * b == a;
    assert (x - lo) * b >= 0.0;
    assert (hi - x) * b > 0.0;
  }

  lemma RoundDivNearest(a: nat, b: nat)
    requires b > 0
    ensures RoundDiv(a, b) as real - 0.5 <= a as real / b as real < RoundDiv(a, b) as real + 0.5
  {
    var q := RoundDiv(a, b);
    assert 2 * b * q <= 2 * a + b < 2 * b * q + 2 * b;
    assert (q as real - 0.5) * (b as real) == (2 * b * q - b) as real / 2.0;
    assert (q as real + 0.5) * (b as real) == (2 * b * q + b) as real / 2.0;
    QuotientBounds(a as real, b as real, q as real - 0.5, q as real + 0.5);
  }

  datatype StyleProfile = StyleProfile(
    avgSentenceLength: Option<nat>,
    wordChars: nat,
    wordFields: nat,
    commonPhrases: seq<string>,
    sampleSize: nat,
    createdAt: int)

  /** The profile of a sample: the rounded mean of whitespace fields per (untrimmed) sentence,
      NaN (`None`) without sentences; the total length and number of the whitespace fields of
      the whole text, whose quotient is the mean word length; the five most frequent bigrams;
      the number of sentences; and the clock value. */
  method AnalyzeWritingStyle(text: string, now: int) returns (r: StyleProfile)
    ensures var ss := SplitSentences(text);
      && r.sampleSize == |ss|
      && (|ss| == 0 <==> r.avgSentenceLength.None?)
      && (|ss| > 0 ==> r.avgSentenceLength == Some(RoundDiv(TokenTotal(ss), |ss|)))
      && r.wordChars == TotalLength(SplitWs(text)) && r.wordFields == |SplitWs(text)|
      && r.commonPhrases == TopPhrases(ss)
      && r.createdAt == now
  {
    var sentences := SplitSentences(text);
    var words := SplitWs(text);
    var avg := if |sentences| > 0 then Some(RoundDiv(TokenTotal(sentences), |sentences|)) else None;
    var phrases := ExtractCommonPhrases(sentences);
    r := StyleProfile(avg, TotalLength(words), |words|, phrases, |sentences|, now);
  }

  /** The profile's mean word length is the one the other analysers use: non-whitespace
      characters per whitespace field, and there is always at least one field. */
  lemma ProfileWordLength(text: string)
    ensures |SplitWs(text)| > 0
    ensures TotalLength(SplitWs(text)) as real / |SplitWs(text)| as real == AvgWordLength(text)
  {
    SplitWsLength(text);
  }

  /** The profile's mean sentence length is within a half of the exact mean. */
  lemma ProfileSentenceLength(text: string)
    requires |SplitSentences(text)| > 0
    ensures var ss := SplitSentences(text);
      var q := RoundDiv(TokenTotal(ss), |ss|) as real;
      q - 0.5 <= TokenTotal(ss) as real / |ss| as real < q + 0.5
  {
    var ss := SplitSentences(text);
    RoundDivNearest(TokenTotal(ss), |ss|);
  }
}
