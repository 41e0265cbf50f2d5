/** Decimal numerals and the order in which JavaScript enumerates the own keys of a plain object.

    `String(n)` turns a count into decimal digits, as the messages of the assistant do
    ("Simplified 3 complex terms!"). `Object.entries` lists array-index keys (canonical decimal
    numerals below 2^32 - 1) first, in ascending numeric order, and every other key after them in
    the order it was first inserted. */
module Numerals {
  import opened Text

  // ---------------------------------------------------------------- decimal numerals

  function DigitChar(d: nat): (c: char)
    requires d < 10
    ensures IsDigit(c)
  {
    ('0' as int + d) as char
  }

  function DigitValue(c: char): (d: nat)
    requires IsDigit(c)
    ensures d < 10
  {
    c as int - '0' as int
  }

  predicate AllDigits(s: string) {
    forall i :: 0 <= i < |s| ==> IsDigit(s[i])
  }

  /** `String(n)` for a non-negative integer. */
  function Decimal(n: nat): (s: string)
    ensures |s| > 0 && AllDigits(s)
    ensures |s| > 1 ==> s[0] != '0'
    decreases n
  {
    if n < 10 then [DigitChar(n)] else Decimal(n / 10) + [DigitChar(n % 10)]
  }

  /** The value of a string of decimal digits, most significant first. */
  function DecimalValue(s: string): nat
    requires AllDigits(s)
  {
    if |s| == 0 then 0 else DecimalValue(s[..|s| - 1]) * 10 + DigitValue(s[|s| - 1])
  }

  /** A numeral as `String` writes it: at least one digit and no leading zero. */
  predicate IsCanonical(s: string) {
    |s| > 0 && AllDigits(s) && (|s| > 1 ==> s[0] != '0')
  }

  lemma {:induction false} DecimalRoundTrip(n: nat)
    ensures DecimalValue(Decimal(n)) == n
    decreases n
  {
    if n >= 10 {
      var s := Decimal(n);
      assert s[..|s| - 1] == Decimal(n / 10);
      DecimalRoundTrip(n / 10);
    }
  }

  lemma {:induction false} CanonicalPositive(s: string)
    requires IsCanonical(s) && s[0] != '0'
    ensures DecimalValue(s) >= 1
    decreases |s|
  {
    if |s| > 1 {
      var p := s[..|s| - 1];
      assert p[0] == s[0];
      CanonicalPositive(p);
    }
  }

  /** Every canonical numeral is the `String` of its value, so `Decimal` and `DecimalValue` are
      inverse bijections between naturals and canonical numerals. */
  lemma {:induction false} CanonicalRoundTrip(s: string)
    requires IsCanonical(s)
    ensures Decimal(DecimalValue(s)) == s
    decreases |s|
  {
    if |s| > 1 {
      var p := s[..|s| - 1];
      assert p[0] == s[0];
      CanonicalPositive(p);
      CanonicalRoundTrip(p);
      var v := DecimalValue(s);
      assert v / 10 == DecimalValue(p) && v % 10 == DigitValue(s[|s| - 1]);
      assert DigitChar(v % 10) == s[|s| - 1];
      assert s == p + [s[|s| - 1]];
    }
  }

  lemma DecimalInjective(m: nat, n: nat)
    requires Decimal(m) == Decimal(n)
    ensures m == n
  {
    DecimalRoundTrip(m);
    DecimalRoundTrip(n);
  }

  // ---------------------------------------------------------------- own-key order of plain objects

  /** Largest array index plus one: 2^32 - 1. */
  const ArrayIndexLimit: nat := 0xFFFF_FFFF

  /** A property key that is an array index: the canonical numeral of a value below 2^32 - 1. */
  predicate IsArrayIndex(k: string) {
    IsCanonical(k) && DecimalValue(k) < ArrayIndexLimit
  }

  /** The numeric value of an array-index key. */
  function IndexValue(k: string): nat
    requires IsArrayIndex(k)
  {
    DecimalValue(k)
  }

  /** The array-index keys among `ks`, in the order given. */
  function IndexKeys(ks: seq<string>): (r: seq<string>)
    ensures forall i :: 0 <= i < |r| ==> IsArrayIndex(r[i])
    ensures forall k :: k in r <==> k in ks && IsArrayIndex(k)
  {
    if |ks| == 0 then []
    else (if IsArrayIndex(ks[0]) then [ks[0]] else []) + IndexKeys(ks[1..])
  }

  /** The remaining keys among `ks`, in the order given. */
  function NamedKeys(ks: seq<string>): (r: seq<string>)
    ensures forall i :: 0 <= i < |r| ==> !IsArrayIndex(r[i])
    ensures forall k :: k in r <==> k in ks && !IsArrayIndex(k)
  {
    if |ks| == 0 then []
    else (if IsArrayIndex(ks[0]) then [] else [ks[0]]) + NamedKeys(ks[1..])
  }

  /** Places the array-index key `k` before the first key of `sorted` with a larger value. */
  function InsertIndexKey(k: string, sorted: seq<string>): (r: seq<string>)
    requires IsArrayIndex(k)
    requires forall i :: 0 <= i < |sorted| ==> IsArrayIndex(sorted[i])
    ensures |r| == |sorted| + 1
    ensures forall i :: 0 <= i < |r| ==> IsArrayIndex(r[i])
    ensures multiset(r) == multiset(sorted) + multiset{k}
  {
    if |sorted| == 0 || IndexValue(k) <= IndexValue(sorted[0]) then [k] + sorted
    else
      assert sorted == [sorted[0]] + sorted[1..];
      [sorted[0]] + InsertIndexKey(k, sorted[1..])
  }

  function SortIndexKeys(ks: seq<string>): (r: seq<string>)
    requires forall i :: 0 <= i < |ks| ==> IsArrayIndex(ks[i])
    ensures |r| == |ks|
    ensures forall i :: 0 <= i < |r| ==> IsArrayIndex(r[i])
    ensures multiset(r) == multiset(ks)
  {
    if |ks| == 0 then []
    else
      assert ks == [ks[0]] + ks[1..];
      InsertIndexKey(ks[0], SortIndexKeys(ks[1..]))
  }

  /** The order of `Object.keys`/`Object.entries` for an object whose keys were first inserted
      in the order `inserted`. */
  function OwnKeys(inserted: seq<string>): seq<string> {
    SortIndexKeys(IndexKeys(inserted)) + NamedKeys(inserted)
  }

  predicate AscendingIndices(ks: seq<string>)
    requires forall i :: 0 <= i < |ks| ==> IsArrayIndex(ks[i])
  {
    forall i, j :: 0 <= i < j < |ks| ==> IndexValue(ks[i]) <= IndexValue(ks[j])
  }

  lemma {:induction false} InsertIndexKeyAscending(k: string, sorted: seq<string>)
    requires IsArrayIndex(k)
    requires forall i :: 0 <= i < |sorted| ==> IsArrayIndex(sorted[i])
    requires AscendingIndices(sorted)
    ensures AscendingIndices(InsertIndexKey(k, sorted))
    decreases |sorted|
  {
    if |sorted| > 0 && IndexValue(k) > IndexValue(sorted[0]) {
      InsertIndexKeyAscending(k, sorted[1..]);
      var r := InsertIndexKey(k, sorted);
      forall j | 0 < j < |r|
        ensures IndexValue(r[0]) <= IndexValue(r[j])
      {
        assert r[j] in multiset(r);
        assert r[j] in multiset(sorted[1..]) + multiset{k};
        if r[j] in multiset(sorted[1..]) {
          var m :| 0 <= m < |sorted[1..]| && sorted[1..][m] == r[j];
          assert sorted[m + 1] == r[j];
        }
      }
    }
  }

  lemma {:induction false} SortIndexKeysAscending(ks: seq<string>)
    requires forall i :: 0 <= i < |ks| ==> IsArrayIndex(ks[i])
    ensures AscendingIndices(SortIndexKeys(ks))
    decreases |ks|
  {
    if |ks| > 0 {
      SortIndexKeysAscending(ks[1..]);
      InsertIndexKeyAscending(ks[0], SortIndexKeys(ks[1..]));
    }
  }

  lemma {:induction false} SplitKeysMultiset(ks: seq<string>)
    ensures multiset(IndexKeys(ks)) + multiset(NamedKeys(ks)) == multiset(ks)
    decreases |ks|
  {
    if |ks| > 0 {
      var rest := ks[1..];
      SplitKeysMultiset(rest);
      assert multiset(ks) == multiset{ks[0]} + multiset(rest) by {
        assert ks == [ks[0]] + rest;
      }
      if IsArrayIndex(ks[0]) {
        assert IndexKeys(ks) == [ks[0]] + IndexKeys(rest);
        assert multiset(IndexKeys(ks)) == multiset{ks[0]} + multiset(IndexKeys(rest));
        assert NamedKeys(ks) == NamedKeys(rest);
      } else {
        assert IndexKeys(ks) == IndexKeys(rest);
        assert NamedKeys(ks) == [ks[0]] + NamedKeys(rest);
        assert multiset(NamedKeys(ks)) == multiset{ks[0]} + multiset(NamedKeys(rest));
      }
    }
  }

  /** `Object.entries` lists every own key exactly as often as it was inserted (once, for an
      object), array indices first in ascending numeric order, then the other keys in insertion
      order. */
  lemma OwnKeysOrder(inserted: seq<string>)
    ensures multiset(OwnKeys(inserted)) == multiset(inserted)
    ensures var n := |IndexKeys(inserted)|;
      && (forall i :: 0 <= i < n ==> IsArrayIndex(OwnKeys(inserted)[i]))
      && (forall i :: n <= i < |OwnKeys(inserted)| ==> !IsArrayIndex(OwnKeys(inserted)[i]))
      && AscendingIndices(OwnKeys(inserted)[..n])
      && OwnKeys(inserted)[n..] == NamedKeys(inserted)
  {
    SplitKeysMultiset(inserted);
    SortIndexKeysAscending(IndexKeys(inserted));
    var s := SortIndexKeys(IndexKeys(inserted));
    assert OwnKeys(inserted)[..|s|] == s;
  }

  /** Keys that are never array indices (such as keys holding a space) keep insertion order. */
  lemma {:induction false} OwnKeysNoIndices(inserted: seq<string>)
    requires forall i :: 0 <= i < |inserted| ==> !IsArrayIndex(inserted[i])
    ensures OwnKeys(inserted) == inserted
    decreases |inserted|
  {
    if |inserted| > 0 {
      OwnKeysNoIndices(inserted[1..]);
      assert inserted == [inserted[0]] + inserted[1..];
    }
  }

  lemma SpacedKeyIsNamed(k: string)
    requires ' ' in k
    ensures !IsArrayIndex(k)
  {
    var i :| 0 <= i < |k| && k[i] == ' ';
    assert !IsDigit(k[i]);
  }

  /** An object has each own key once: a key list inserted without repeats is enumerated
      without repeats, and holds exactly the inserted keys. */
  lemma OwnKeysDistinct(inserted: seq<string>)
    requires Distinct(inserted)
    ensures Distinct(OwnKeys(inserted))
    ensures forall k :: k in OwnKeys(inserted) <==> k in inserted
  {
    IndexKeysDistinct(inserted);
    NamedKeysDistinct(inserted);
    SortIndexKeysDistinct(IndexKeys(inserted));
    var s := SortIndexKeys(IndexKeys(inserted));
    assert forall k :: k in s <==> k in multiset(IndexKeys(inserted));
    DistinctConcat(s, NamedKeys(inserted));
  }

  lemma {:induction false} IndexKeysDistinct(ks: seq<string>)
    requires Distinct(ks)
    ensures Distinct(IndexKeys(ks))
    decreases |ks|
  {
    if |ks| > 0 {
      IndexKeysDistinct(ks[1..]);
      assert ks[0] !in ks[1..] by {
        assert forall j :: 0 <= j < |ks[1..]| ==> ks[1..][j] == ks[j + 1];
      }
      DistinctConcat(if IsArrayIndex(ks[0]) then [ks[0]] else [], IndexKeys(ks[1..]));
    }
  }

  lemma {:induction false} NamedKeysDistinct(ks: seq<string>)
    requires Distinct(ks)
    ensures Distinct(NamedKeys(ks))
    decreases |ks|
  {
    if |ks| > 0 {
      NamedKeysDistinct(ks[1..]);
      assert ks[0] !in ks[1..] by {
        assert forall j :: 0 <= j < |ks[1..]| ==> ks[1..][j] == ks[j + 1];
      }
      DistinctConcat(if IsArrayIndex(ks[0]) then [] else [ks[0]], NamedKeys(ks[1..]));
    }
  }

  lemma {:induction false} InsertIndexKeyDistinct(k: string, sorted: seq<string>)
    requires IsArrayIndex(k)
    requires forall i :: 0 <= i < |sorted| ==> IsArrayIndex(sorted[i])
    requires Distinct(sorted) && k !in sorted
    ensures Distinct(InsertIndexKey(k, sorted))
    decreases |sorted|
  {
    if |sorted| == 0 || IndexValue(k) <= IndexValue(sorted[0]) {
      DistinctConcat([k], sorted);
    } else {
      var rest := sorted[1..];
      assert forall j :: 0 <= j < |rest| ==> rest[j] == sorted[j + 1];
      InsertIndexKeyDistinct(k, rest);
      var r := InsertIndexKey(k, rest);
      assert forall x :: x in r <==> x in multiset(rest) + multiset{k};
      DistinctConcat([sorted[0]], r);
    }
  }

  lemma {:induction false} SortIndexKeysDistinct(ks: seq<string>)
    requires forall i :: 0 <= i < |ks| ==> IsArrayIndex(ks[i])
    requires Distinct(ks)
    ensures Distinct(SortIndexKeys(ks))
    decreases |ks|
  {
    if |ks| > 0 {
      var rest := ks[1..];
      assert forall j :: 0 <= j < |rest| ==> rest[j] == ks[j + 1];
      SortIndexKeysDistinct(rest);
      assert ks[0] !in multiset(SortIndexKeys(rest));
      InsertIndexKeyDistinct(ks[0], SortIndexKeys(rest));
    }
  }
}
