/**
 * Shared vocabulary of the model: optional values, browser-storage keys,
 * the rounding that JavaScript's Math.round performs, the small string
 * functions the components call (toLowerCase, includes, trim, number to
 * text) and the array helpers (filter, map-where, reduce-to-maximum, sort)
 * that several components share.
 */
module Common {

  datatype Option<T> = None | Some(value: T) {
    function GetOr(default: T): T {
      match this
      case Some(v) => v
      case None => default
    }
  }

  /**
   * One key of the browser's local storage, seen through JSON.parse:
   * no item, an item that does not parse, or an item holding a value.
   * JSON.stringify followed by JSON.parse is taken to give back the value.
   */
  datatype Cell<T> = Absent | Unparsable | Stored(value: T)

  /** What reading a key with `raw ? JSON.parse(raw) : fallback` yields: JSON.parse throws on text that does not parse. */
  function ParseOr<T>(c: Cell<T>, fallback: T): (r: Option<T>)
    ensures r.None? <==> c.Unparsable?
    ensures c.Stored? ==> r == Some(c.value)
    ensures c.Absent? ==> r == Some(fallback)
  {
    match c
    case Absent => Some(fallback)
    case Unparsable => None
    case Stored(v) => Some(v)
  }

  /**
   * Appending one entry to a log kept under a key, as
   * `logs = JSON.parse(raw || '[]'); logs.push(x); setItem(key, JSON.stringify(logs))`:
   * when the stored text does not parse, JSON.parse throws and the key keeps its text.
   */
  function AppendToLog<T>(c: Cell<seq<T>>, x: T): (r: Cell<seq<T>>)
    ensures c.Unparsable? ==> r == c
    ensures c.Absent? ==> r == Stored([x])
    ensures c.Stored? ==> r == Stored(c.value + [x])
  {
    match c
    case Absent => Stored([x])
    case Unparsable => Unparsable
    case Stored(l) => Stored(l + [x])
  }

  /** The interval handles an optional handle field accounts for. */
  function TimerSet(t: Option<nat>): set<nat>
  {
    if t.Some? then {t.value} else {}
  }

  // ---------------------------------------------------------------------
  // Math.round

  /** Math.round(num / den) for den > 0: the nearest integer, halves rounded up. */
  function RoundDiv(num: int, den: int): (r: int)
    requires den > 0
    ensures den * (2 * r - 1) <= 2 * num < den * (2 * r + 1)
  {
    var q := (2 * num + den) / (2 * den);
    DivBounds(2 * num + den, 2 * den);
    q
  }

  lemma DivBounds(a: int, b: int)
    requires b > 0
    ensures b * (a / b) <= a < b * (a / b) + b
  {
  }

  /** Math.round(x) on a real: the nearest integer, halves rounded up. */
  function RoundReal(x: real): (r: int)
    ensures r as real - 0.5 <= x < r as real + 0.5
  {
    (x + 0.5).Floor
  }

  /** The rounding is monotone: a larger numerator never rounds lower. */
  lemma RoundDivMonotone(a: int, b: int, den: int)
    requires den > 0 && a <= b
    ensures RoundDiv(a, den) <= RoundDiv(b, den)
  {
    var ra, rb := RoundDiv(a, den), RoundDiv(b, den);
    assert den * (2 * ra - 1) < den * (2 * rb + 1);
    MulCancel(den, 2 * ra - 1, 2 * rb + 1);
  }

  /** A positive factor can be cancelled from a strict inequality. */
  lemma MulCancel(k: int, x: int, y: int)
    requires k > 0 && k * x < k * y
    ensures x < y
  {
    assert k * (y - x) == k * y - k * x;
  }

  // ---------------------------------------------------------------------
  // Strings: case mapping on the ASCII and Latin-1 letters (which cover
  // Spanish), white space as ECMAScript defines it

  /** A capital letter of ASCII or Latin-1 (À to Þ without ×), or Ÿ. */
  predicate IsUpperLetter(c: char) {
    'A' <= c <= 'Z' || ('\U{00C0}' <= c <= '\U{00DE}' && c != '\U{00D7}') || c == '\U{0178}'
  }

  /** A small letter of ASCII or Latin-1 (à to þ without ÷), or ÿ, whose capital is Ÿ. */
  predicate IsLowerLetter(c: char) {
    'a' <= c <= 'z' || ('\U{00E0}' <= c <= '\U{00FE}' && c != '\U{00F7}') || c == '\U{00FF}'
  }

  /** The small letter of a capital; any other character is kept. */
  function LowerChar(c: char): (r: char)
    ensures IsUpperLetter(c) ==> IsLowerLetter(r) && UpperChar(r) == c
    ensures !IsUpperLetter(c) ==> r == c
  {
    if c == '\U{0178}' then '\U{00FF}'
    else if IsUpperLetter(c) then (c as int + 32) as char
    else c
  }

  /** The capital of a small letter; any other character is kept. */
  function UpperChar(c: char): (r: char)
    ensures IsLowerLetter(c) ==> IsUpperLetter(r)
    ensures !IsLowerLetter(c) ==> r == c
  {
    if c == '\U{00FF}' then '\U{0178}'
    else if IsLowerLetter(c) then (c as int - 32) as char
    else c
  }

  /** Upper-casing then lower-casing a character is lower-casing it. */
  lemma LowerOfUpperChar(c: char)
    ensures LowerChar(UpperChar(c)) == LowerChar(c)
    ensures !IsUpperLetter(c) ==> LowerChar(UpperChar(c)) == c
  {
  }

  /** String.prototype.toLowerCase, on ASCII and Latin-1 letters. */
  function ToLower(s: string): (r: string)
    ensures |r| == |s| && forall i :: 0 <= i < |s| ==> r[i] == LowerChar(s[i])
  {
    if s == [] then [] else [LowerChar(s[0])] + ToLower(s[1..])
  }

  /** String.prototype.toUpperCase, on ASCII and Latin-1 letters (ß and µ excepted). */
  function ToUpper(s: string): (r: string)
    ensures |r| == |s| && forall i :: 0 <= i < |s| ==> r[i] == UpperChar(s[i])
  {
    if s == [] then [] else [UpperChar(s[0])] + ToUpper(s[1..])
  }

  /** String.prototype.includes: `sub` occurs in `s` at some position. */
  predicate Contains(s: string, sub: string) {
    exists i :: 0 <= i <= |s| && OccursAt(s, sub, i)
  }

  predicate OccursAt(s: string, sub: string, i: int) {
    0 <= i <= |s| - |sub| && s[i..i + |sub|] == sub
  }

  lemma EmptyContained(s: string)
    ensures Contains(s, "")
  {
    assert OccursAt(s, "", 0);
  }

  /**
   * ECMAScript's WhiteSpace and LineTerminator characters, the ones trim
   * removes: tab, the line and form feeds, carriage return, space, no-break
   * space, the byte-order mark, the Unicode space separators (U+1680, U+2000
   * to U+200A, U+202F, U+205F, U+3000) and the line and paragraph separators.
   */
  predicate IsSpace(c: char) {
    ('\U{0009}' <= c <= '\U{000D}') || c == ' ' || c == '\U{00A0}' || c == '\U{1680}' ||
    ('\U{2000}' <= c <= '\U{200A}') || c == '\U{2028}' || c == '\U{2029}' || c == '\U{202F}' ||
    c == '\U{205F}' || c == '\U{3000}' || c == '\U{FEFF}'
  }

  function TrimStart(s: string): (r: string)
    ensures |r| <= |s| && r == s[|s| - |r|..]
    ensures r != [] ==> !IsSpace(r[0])
    ensures forall i :: 0 <= i < |s| - |r| ==> IsSpace(s[i])
  {
    if s != [] && IsSpace(s[0]) then TrimStart(s[1..]) else s
  }

  function TrimEnd(s: string): (r: string)
    ensures |r| <= |s| && r == s[..|r|]
    ensures r != [] ==> !IsSpace(r[|r| - 1])
    ensures forall i :: |r| <= i < |s| ==> IsSpace(s[i])
  {
    if s != [] && IsSpace(s[|s| - 1]) then TrimEnd(s[..|s| - 1]) else s
  }

  /** String.prototype.trim. */
  function Trim(s: string): string {
    TrimEnd(TrimStart(s))
  }

  /** `!s.trim()`: the text is empty or only white space. */
  lemma TrimEmptyIffBlank(s: string)
    ensures Trim(s) == "" <==> forall i :: 0 <= i < |s| ==> IsSpace(s[i])
  {
    var t := TrimStart(s);
    if Trim(s) == "" {
      assert t == [];
    } else {
      var r := Trim(s);
      assert r == t[..|r|] && r[0] == t[0] == s[|s| - |t|];
    }
  }

  // ---------------------------------------------------------------------
  // Decimal text of numbers, as String(n) writes an integer

  function DigitChar(d: nat): char
    requires d < 10
  {
    "0123456789"[d]
  }

  predicate IsDigit(c: char) {
    '0' <= c <= '9'
  }

  function DigitValue(c: char): nat
    requires IsDigit(c)
  {
    c as int - '0' as int
  }

  function NatToText(n: nat): (r: string)
    ensures 1 <= |r| && forall i :: 0 <= i < |r| ==> IsDigit(r[i])
    decreases n
  {
    if n < 10 then [DigitChar(n)] else NatToText(n / 10) + [DigitChar(n % 10)]
  }

  function IntToText(n: int): string {
    if n < 0 then "-" + NatToText(-n) else NatToText(n)
  }

  /** Value of a string of decimal digits; the inverse of NatToText. */
  function TextToNat(s: string): nat
    requires forall i :: 0 <= i < |s| ==> IsDigit(s[i])
  {
    if s == [] then 0 else 10 * TextToNat(s[..|s| - 1]) + DigitValue(s[|s| - 1])
  }

  lemma {:induction false} NatTextRoundTrip(n: nat)
    ensures TextToNat(NatToText(n)) == n
    decreases n
  {
    var t := NatToText(n);
    if n >= 10 {
      NatTextRoundTrip(n / 10);
      assert t[..|t| - 1] == NatToText(n / 10);
    }
  }

  /** A leading zero does not change the value of a digit string. */
  lemma {:induction false} LeadingZero(s: string)
    requires forall i :: 0 <= i < |s| ==> IsDigit(s[i])
    ensures TextToNat("0" + s) == TextToNat(s)
    decreases |s|
  {
    if s != [] {
      var z := "0" + s;
      assert z[..|z| - 1] == "0" + s[..|s| - 1];
      LeadingZero(s[..|s| - 1]);
    }
  }

  /** The value of the longest run of decimal digits at the start of `s` (parseInt on "5 min" gives 5). */
  function LeadingDigits(s: string): (r: string)
    ensures r <= s && forall i :: 0 <= i < |r| ==> IsDigit(s[i])
    ensures |r| < |s| ==> !IsDigit(s[|r|])
  {
    if s != [] && IsDigit(s[0]) then [s[0]] + LeadingDigits(s[1..]) else []
  }

  /** The digit prefix is exactly the first `k` characters when they are digits and the next is not. */
  lemma LeadingDigitsIs(s: string, k: nat)
    requires k <= |s| && (forall i :: 0 <= i < k ==> IsDigit(s[i])) && (k < |s| ==> !IsDigit(s[k]))
    ensures LeadingDigits(s) == s[..k]
  {
  }

  // ---------------------------------------------------------------------
  // Sequences

  function Sum(s: seq<int>): int {
    if s == [] then 0 else Sum(s[..|s| - 1]) + s[|s| - 1]
  }

  lemma SumAppend(s: seq<int>, x: int)
    ensures Sum(s + [x]) == Sum(s) + x
  {
    assert (s + [x])[..|s|] == s;
  }

  /** No element occurs twice. */
  predicate NoDup<T(==)>(s: seq<T>) {
    forall i, j :: 0 <= i < j < |s| ==> s[i] != s[j]
  }

  /** Array.prototype.filter: the elements that satisfy `p`, in their order. */
  function Filter<T(==,!new)>(s: seq<T>, p: T -> bool): (r: seq<T>)
    ensures |r| <= |s|
    ensures forall x :: x in r <==> x in s && p(x)
    ensures NoDup(s) ==> NoDup(r)
  {
    if s == [] then [] else (if p(s[0]) then [s[0]] else []) + Filter(s[1..], p)
  }

  lemma {:induction false} FilterAppend<T(!new)>(s: seq<T>, t: seq<T>, p: T -> bool)
    ensures Filter(s + t, p) == Filter(s, p) + Filter(t, p)
    decreases |s|
  {
    if s != [] {
      assert (s + t)[1..] == s[1..] + t;
      FilterAppend(s[1..], t, p);
    } else {
      assert s + t == t;
    }
  }

  /** Filtering with a predicate every element satisfies gives the sequence back. */
  lemma {:induction false} FilterAll<T(!new)>(s: seq<T>, p: T -> bool)
    requires forall x :: x in s ==> p(x)
    ensures Filter(s, p) == s
    decreases |s|
  {
    if s != [] {
      FilterAll(s[1..], p);
    }
  }

  /** Filtering by `p` and then by `q` is filtering once by both. */
  lemma {:induction false} FilterFilter<T(!new)>(s: seq<T>, p: T -> bool, q: T -> bool, pq: T -> bool)
    requires forall x :: pq(x) == (p(x) && q(x))
    ensures Filter(Filter(s, p), q) == Filter(s, pq)
    decreases |s|
  {
    if s != [] {
      FilterFilter(s[1..], p, q, pq);
      var head := if p(s[0]) then [s[0]] else [];
      FilterAppend(head, Filter(s[1..], p), q);
      if p(s[0]) {
        assert [s[0]][1..] == [];
      }
    }
  }

  /** Predicates that agree on the elements filter alike. */
  lemma {:induction false} FilterExt<T(!new)>(s: seq<T>, p: T -> bool, q: T -> bool)
    requires forall x :: x in s ==> p(x) == q(x)
    ensures Filter(s, p) == Filter(s, q)
    decreases |s|
  {
    if s != [] {
      FilterExt(s[1..], p, q);
    }
  }

  /**
   * `[...new Set(s)]`: the first occurrence of every element, in order.
   */
  function Dedup<T(==,!new)>(s: seq<T>): (r: seq<T>)
    ensures NoDup(r)
    ensures forall x :: x in r <==> x in s
    ensures NoDup(s) ==> r == s
  {
    if s == [] then []
    else
      var d := Dedup(s[..|s| - 1]);
      var x := s[|s| - 1];
      assert s == s[..|s| - 1] + [x];
      if x in d then d else d + [x]
  }

  /**
   * `s.includes(x) ? s.filter(y => y !== x) : [...s, x]`: drop every copy of
   * a present element, or append an absent one.
   */
  function ToggleIn<T(==,!new)>(s: seq<T>, x: T): (r: seq<T>)
    ensures forall y :: y in r <==> (y in s) != (y == x)
    ensures NoDup(s) ==> NoDup(r)
  {
    if x in s then Filter(s, y => y != x) else s + [x]
  }

  /** Toggling an absent element twice gives the sequence back. */
  lemma {:induction false} ToggleTwice<T(!new)>(s: seq<T>, x: T)
    requires x !in s
    ensures ToggleIn(ToggleIn(s, x), x) == s
  {
    var p := (y: T) => y != x;
    FilterAppend(s, [x], p);
    FilterAll(s, p);
    assert Filter([x], p) == [];
  }

  /** Array.prototype.map with `x => p(x) ? f(x) : x`. */
  function MapWhere<T>(s: seq<T>, p: T -> bool, f: T -> T): (r: seq<T>)
    ensures |r| == |s|
    ensures forall i :: 0 <= i < |s| ==> r[i] == if p(s[i]) then f(s[i]) else s[i]
  {
    if s == [] then [] else [if p(s[0]) then f(s[0]) else s[0]] + MapWhere(s[1..], p, f)
  }

  /** Index of the entry that `reduce((a, b) => a[1] > b[1] ? a : b)` keeps: the last one holding the maximum. */
  function LastMaxIndex(vals: seq<real>): (k: nat)
    requires |vals| > 0
    ensures k < |vals|
    ensures forall j :: 0 <= j < |vals| ==> vals[j] <= vals[k]
    ensures forall j :: k < j < |vals| ==> vals[j] < vals[k]
  {
    if |vals| == 1 then 0
    else
      var k := LastMaxIndex(vals[..|vals| - 1]);
      assert forall j :: 0 <= j < |vals| - 1 ==> vals[..|vals| - 1][j] == vals[j];
      if vals[k] > vals[|vals| - 1] then k else |vals| - 1
  }

  // ---------------------------------------------------------------------
  // Sorting newest first (Array.prototype.sort with `(a, b) => key(b) - key(a)`)

  predicate SortedDesc<T>(s: seq<T>, key: T -> int) {
    forall i, j :: 0 <= i < j < |s| ==> key(s[i]) >= key(s[j])
  }

  function InsertDesc<T(==,!new)>(x: T, s: seq<T>, key: T -> int): (r: seq<T>)
    requires SortedDesc(s, key)
    ensures SortedDesc(r, key)
    ensures multiset(r) == multiset(s) + multiset{x}
  {
    if s == [] then [x]
    else if key(s[0]) >= key(x) then
      SortedDescTail(s, key);
      var t := InsertDesc(x, s[1..], key);
      assert s == [s[0]] + s[1..];
      InsertBehindHead(s[0], x, s[1..], t, key);
      assert multiset(s) == multiset{s[0]} + multiset(s[1..]);
      assert multiset([s[0]] + t) == multiset{s[0]} + multiset(t);
      [s[0]] + t
    else
      [x] + s
  }

  lemma SortedDescTail<T>(s: seq<T>, key: T -> int)
    requires s != [] && SortedDesc(s, key)
    ensures SortedDesc(s[1..], key)
  {
    forall i, j | 0 <= i < j < |s| - 1 ensures key(s[1..][i]) >= key(s[1..][j]) {
      assert s[1..][i] == s[i + 1] && s[1..][j] == s[j + 1];
    }
  }

  lemma InsertBehindHead<T(!new)>(h: T, x: T, rest: seq<T>, t: seq<T>, key: T -> int)
    requires SortedDesc([h] + rest, key) && SortedDesc(t, key)
    requires multiset(t) == multiset(rest) + multiset{x} && key(h) >= key(x)
    ensures SortedDesc([h] + t, key)
  {
    forall j | 0 <= j < |t| ensures key(h) >= key(t[j]) {
      assert t[j] in multiset(t);
      if t[j] != x {
        assert t[j] in multiset(rest);
        var k :| 0 <= k < |rest| && rest[k] == t[j];
        assert ([h] + rest)[k + 1] == t[j] && ([h] + rest)[0] == h;
        assert key(([h] + rest)[0]) >= key(([h] + rest)[k + 1]);
      }
    }
  }

  /** A stable insertion sort by descending key: equal keys keep their order. */
  function SortDesc<T(==,!new)>(s: seq<T>, key: T -> int): (r: seq<T>)
    ensures SortedDesc(r, key)
    ensures multiset(r) == multiset(s)
  {
    if s == [] then []
    else
      assert s == s[..|s| - 1] + [s[|s| - 1]];
      InsertDesc(s[|s| - 1], SortDesc(s[..|s| - 1], key), key)
  }
}

