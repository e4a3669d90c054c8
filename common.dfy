/**
 * Small value types and string helpers shared by every part of the model:
 * optional values and error results (the source's `null` and thrown errors),
 * JavaScript truthiness of optional strings, decimal rendering of numbers,
 * `padStart`, `slice(-n)`, `startsWith`, character replacement and the
 * lexicographic ordering that JavaScript's `<` and `>` use on strings.
 */
module Common {

  datatype Option<T> = None | Some(value: T)

  /** A computation that returns a value or raises an error with a message. */
  datatype Result<T> = Ok(value: T) | Err(error: string)

  /** `if (x)` on a `string | null`: null and the empty string are false. */
  predicate Truthy(o: Option<string>) {
    o.Some? && o.value != ""
  }

  /** `x || undefined` on a `string | null | undefined`: the value when it is a non-empty string, otherwise absent. */
  function OrNull(o: Option<string>): (r: Option<string>)
    ensures r.Some? <==> Truthy(o)
    ensures r.Some? ==> r == o
  {
    if Truthy(o) then o else None
  }

  // ---------------------------------------------------------------------------
  // Decimal digits
  // ---------------------------------------------------------------------------

  predicate IsDigit(c: char) {
    '0' <= c <= '9'
  }

  predicate AllDigits(s: string) {
    forall i :: 0 <= i < |s| ==> IsDigit(s[i])
  }

  function DigitChar(d: nat): (c: char)
    requires d < 10
    ensures IsDigit(c)
  {
    ('0' as int + d) as char
  }

  function DigitValue(c: char): (d: nat)
    requires IsDigit(c)
    ensures d < 10
  {
    c as int - '0' as int
  }

  /** `String(n)` / `n.toString()` for a non-negative integer. */
  function NatToString(n: nat): (s: string)
    ensures |s| >= 1 && AllDigits(s)
    ensures s[0] == '0' ==> n == 0
    ensures n < 100 ==> |s| <= 2
  {
    if n < 10 then [DigitChar(n)] else NatToString(n / 10) + [DigitChar(n % 10)]
  }

  /** The number a string of decimal digits denotes. */
  function DecimalValue(s: string): nat
    requires AllDigits(s)
  {
    if s == [] then 0 else DecimalValue(s[..|s| - 1]) * 10 + DigitValue(s[|s| - 1])
  }

  /** Rendering a number in decimal loses nothing: reading it back gives the number. */
  lemma {:induction false} DecimalRoundTrip(n: nat)
    ensures DecimalValue(NatToString(n)) == n
  {
    if n >= 10 {
      var s := NatToString(n);
      assert s[..|s| - 1] == NatToString(n / 10);
      DecimalRoundTrip(n / 10);
    }
  }

  /** Leading zeros do not change the value of a digit string. */
  lemma {:induction false} LeadingZeroValue(s: string)
    requires AllDigits(s)
    ensures AllDigits(['0'] + s) && DecimalValue(['0'] + s) == DecimalValue(s)
  {
    if s != [] {
      var t := ['0'] + s;
      assert t[..|t| - 1] == ['0'] + s[..|s| - 1];
      LeadingZeroValue(s[..|s| - 1]);
    }
  }

  /** `s.padStart(width, pad)`. */
  function PadStart(s: string, width: nat, pad: char): (r: string)
    ensures |r| == if |s| < width then width else |s|
    ensures r[|r| - |s|..] == s
    ensures forall i :: 0 <= i < |r| - |s| ==> r[i] == pad
  {
    if |s| >= width then s else seq(width - |s|, _ => pad) + s
  }

  /** Zero padding does not change the value of a digit string. */
  lemma {:induction false} PadStartValue(s: string, width: nat)
    requires AllDigits(s)
    ensures AllDigits(PadStart(s, width, '0'))
    ensures DecimalValue(PadStart(s, width, '0')) == DecimalValue(s)
    decreases width - |s|
  {
    if |s| < width {
      LeadingZeroValue(s);
      PadStartValue(['0'] + s, width);
      assert PadStart(s, width, '0') == PadStart(['0'] + s, width, '0');
    }
  }

  // ---------------------------------------------------------------------------
  // Other string operations
  // ---------------------------------------------------------------------------

  predicate StartsWith(s: string, prefix: string) {
    |prefix| <= |s| && s[..|prefix|] == prefix
  }

  lemma AppendAssociative<T>(a: seq<T>, b: seq<T>, c: seq<T>)
    ensures a + (b + c) == (a + b) + c
  {
  }

  /** `s.slice(-n)`: the last n characters, or all of s when it is shorter. */
  function LastChars(s: string, n: nat): (r: string)
    ensures |r| == if |s| < n then |s| else n
    ensures s == s[..|s| - |r|] + r
  {
    if |s| <= n then s else s[|s| - n..]
  }

  /** `s.replace(/x/g, y)` for a single character x. */
  function ReplaceChar(s: string, x: char, y: char): (r: string)
    ensures |r| == |s|
    ensures forall i :: 0 <= i < |s| ==> r[i] == (if s[i] == x then y else s[i])
  {
    if s == [] then [] else [if s[0] == x then y else s[0]] + ReplaceChar(s[1..], x, y)
  }

  // ---------------------------------------------------------------------------
  // JavaScript's string ordering (code unit by code unit, a prefix first)
  // ---------------------------------------------------------------------------

  /** `a < b` on JavaScript strings. */
  predicate LexLess(a: string, b: string) {
    if a == [] then b != []
    else if b == [] then false
    else if a[0] == b[0] then LexLess(a[1..], b[1..])
    else a[0] < b[0]
  }

  /** `a <= b` on JavaScript strings. */
  predicate LexLessEq(a: string, b: string) {
    a == b || LexLess(a, b)
  }

  lemma {:induction false} LexLessIrreflexive(a: string)
    ensures !LexLess(a, a)
  {
    if a != [] {
      LexLessIrreflexive(a[1..]);
    }
  }

  lemma {:induction false} LexLessTransitive(a: string, b: string, c: string)
    requires LexLess(a, b) && LexLess(b, c)
    ensures LexLess(a, c)
  {
    if a != [] && a[0] == b[0] && b[0] == c[0] {
      LexLessTransitive(a[1..], b[1..], c[1..]);
    }
  }

  lemma LexLessAsymmetric(a: string, b: string)
    requires LexLess(a, b)
    ensures !LexLess(b, a)
  {
    if LexLess(b, a) {
      LexLessTransitive(a, b, a);
      LexLessIrreflexive(a);
    }
  }

  /** Two different strings are always ordered one way or the other. */
  lemma {:induction false} LexLessTotal(a: string, b: string)
    requires a != b
    ensures LexLess(a, b) || LexLess(b, a)
  {
    if a != [] && b != [] && a[0] == b[0] {
      assert a == [a[0]] + a[1..] && b == [b[0]] + b[1..];
      LexLessTotal(a[1..], b[1..]);
    }
  }

  /** Hence `!(a > b)` means `a <= b`. */
  lemma NotGreaterIsLessEq(a: string, b: string)
    requires !LexLess(b, a)
    ensures LexLessEq(a, b)
  {
    if a != b {
      LexLessTotal(a, b);
    }
  }

  lemma LexLessEqTransitive(a: string, b: string, c: string)
    requires LexLessEq(a, b) && LexLessEq(b, c)
    ensures LexLessEq(a, c)
  {
    if a != b && b != c {
      LexLessTransitive(a, b, c);
    }
  }

  // ---------------------------------------------------------------------------
  // Row selection
  // ---------------------------------------------------------------------------

  /** The rows of s that satisfy f, in table order. */
  function Filter<T(!new)>(s: seq<T>, f: T -> bool): (r: seq<T>)
    ensures |r| <= |s|
    ensures forall x :: x in r <==> x in s && f(x)
  {
    if s == [] then []
    else if f(s[0]) then [s[0]] + Filter(s[1..], f)
    else Filter(s[1..], f)
  }

  /** `.update(...).eq(key, k)`: every row f selects rewritten by g, the rest kept. */
  function PatchWhere<T>(s: seq<T>, f: T -> bool, g: T -> T): (r: seq<T>)
    ensures |r| == |s|
    ensures forall i :: 0 <= i < |s| ==> r[i] == if f(s[i]) then g(s[i]) else s[i]
  {
    seq(|s|, i requires 0 <= i < |s| => if f(s[i]) then g(s[i]) else s[i])
  }

  /** The filter keeps table order: filtering a table with one more row filters that row last. */
  lemma {:induction false} FilterAppend<T(!new)>(s: seq<T>, x: T, f: T -> bool)
    ensures Filter(s + [x], f) == Filter(s, f) + (if f(x) then [x] else [])
  {
    if s == [] {
      assert s + [x] == [x] && [x][1..] == [];
    } else {
      assert (s + [x])[0] == s[0] && (s + [x])[1..] == s[1..] + [x];
      FilterAppend(s[1..], x, f);
    }
  }

  /** The filter keeps each selected row as often as the table has it, and no other row. */
  lemma {:induction false} FilterCounts<T(!new)>(s: seq<T>, f: T -> bool, x: T)
    ensures multiset(Filter(s, f))[x] == if f(x) then multiset(s)[x] else 0
  {
    if s != [] {
      FilterCounts(s[1..], f, x);
      assert s == [s[0]] + s[1..];
      assert multiset(s) == multiset([s[0]]) + multiset(s[1..]);
    }
  }

  lemma {:induction false} FilterNone<T(!new)>(s: seq<T>, f: T -> bool)
    requires forall i :: 0 <= i < |s| ==> !f(s[i])
    ensures Filter(s, f) == []
  {
    if s != [] {
      FilterNone(s[1..], f);
    }
  }

  /** When no two rows share a key, at most one row has a given key. */
  lemma {:induction false} FilterAtMostOne<T(!new)>(s: seq<T>, f: T -> bool)
    requires forall i, j :: 0 <= i < |s| && 0 <= j < |s| && f(s[i]) && f(s[j]) ==> i == j
    ensures |Filter(s, f)| <= 1
    ensures (exists i :: 0 <= i < |s| && f(s[i])) ==> |Filter(s, f)| == 1
  {
    if s != [] {
      var t := s[1..];
      forall i, j | 0 <= i < |t| && 0 <= j < |t| && f(t[i]) && f(t[j]) ensures i == j {
        assert s[i + 1] == t[i] && s[j + 1] == t[j];
      }
      FilterAtMostOne(t, f);
      if f(s[0]) {
        forall i | 0 <= i < |t| ensures !f(t[i]) {
          assert s[i + 1] == t[i];
        }
        FilterNone(t, f);
      } else if exists i :: 0 <= i < |s| && f(s[i]) {
        var i :| 0 <= i < |s| && f(s[i]);
        assert t[i - 1] == s[i];
      }
    }
  }

  /** FilterAtMostOne, stated for any rows. */
  lemma FilterUnique<T(!new)>(s: seq<T>, f: T -> bool)
    ensures (forall i, j :: 0 <= i < |s| && 0 <= j < |s| && f(s[i]) && f(s[j]) ==> i == j) ==>
              |Filter(s, f)| <= 1 && ((exists i :: 0 <= i < |s| && f(s[i])) ==> |Filter(s, f)| == 1)
  {
    if forall i, j :: 0 <= i < |s| && 0 <= j < |s| && f(s[i]) && f(s[j]) ==> i == j {
      FilterAtMostOne(s, f);
    }
  }

  /** `.single()`: the row when exactly one matched, otherwise no row. */
  function Single<T>(rows: seq<T>): (r: Option<T>)
    ensures r.Some? <==> |rows| == 1
    ensures r.Some? ==> r.value == rows[0]
  {
    if |rows| == 1 then Some(rows[0]) else None
  }
}
