/**
 * The few Python `str` operations the core relies on, stated over `seq<char>`:
 * `strip()`, `in`, `startswith`, `split("\n")`, `"\n".join`, `replace(p, "")`,
 * `str(int)` and `int(<decimal digits>)`.
 */
module Text {
  import opened Optional

  // ---------------------------------------------------------------------------
  // Whitespace and strip()

  /** Python's `str.isspace` for one character: the characters `str.strip()` removes. */
  predicate IsSpace(c: char) {
    || c == ' ' || c == '\t' || c == '\n' || c == '\r' || c == '\U{000B}' || c == '\U{000C}'
    || ('\U{001C}' <= c <= '\U{001F}') || c == '\U{0085}' || c == '\U{00A0}' || c == '\U{1680}'
    || ('\U{2000}' <= c <= '\U{200A}') || c == '\U{2028}' || c == '\U{2029}' || c == '\U{202F}'
    || c == '\U{205F}' || c == '\U{3000}'
  }

  /** Number of whitespace characters at the front of `s`. */
  function LeadingSpaces(s: string): (n: nat)
    ensures n <= |s|
    ensures forall k :: 0 <= k < n ==> IsSpace(s[k])
    ensures n < |s| ==> !IsSpace(s[n])
  {
    if s == [] || !IsSpace(s[0]) then 0 else 1 + LeadingSpaces(s[1..])
  }

  /** Number of whitespace characters at the back of `s`. */
  function TrailingSpaces(s: string): (n: nat)
    ensures n <= |s|
    ensures forall k :: |s| - n <= k < |s| ==> IsSpace(s[k])
    ensures n < |s| ==> !IsSpace(s[|s| - 1 - n])
  {
    if s == [] || !IsSpace(s[|s| - 1]) then 0 else 1 + TrailingSpaces(s[..|s| - 1])
  }

  /** Index where `Strip(s)` starts. */
  function StripStart(s: string): nat
  {
    LeadingSpaces(s)
  }

  /** Index where `Strip(s)` ends (exclusive). */
  function StripEnd(s: string): (e: nat)
    ensures StripStart(s) <= e <= |s|
  {
    |s| - TrailingSpaces(s[LeadingSpaces(s)..])
  }

  /**
   * Python's `s.strip()`: the slice of `s` left after removing whitespace at both ends.
   * The result has no whitespace at either end, and only whitespace was removed.
   */
  function Strip(s: string): (r: string)
    ensures r == s[StripStart(s)..StripEnd(s)]
    ensures r == [] || (!IsSpace(r[0]) && !IsSpace(r[|r| - 1]))
    ensures forall k :: 0 <= k < StripStart(s) ==> IsSpace(s[k])
    ensures forall k :: StripEnd(s) <= k < |s| ==> IsSpace(s[k])
  {
    var a := LeadingSpaces(s);
    var t := s[a..];
    var b := TrailingSpaces(t);
    TrailingOfSuffix(s, a);
    t[..|t| - b]
  }

  /** The trailing whitespace of a suffix of `s` is trailing whitespace of `s`. */
  lemma TrailingOfSuffix(s: string, a: nat)
    requires a <= |s|
    ensures forall k :: |s| - TrailingSpaces(s[a..]) <= k < |s| ==> IsSpace(s[k])
  {
    var t := s[a..];
    forall k | |s| - TrailingSpaces(t) <= k < |s| ensures IsSpace(s[k]) {
      assert s[k] == t[k - a];
    }
  }

  /** A string with no whitespace at either end is its own `strip()`. */
  lemma StripUnchanged(s: string)
    requires s == [] || (!IsSpace(s[0]) && !IsSpace(s[|s| - 1]))
    ensures Strip(s) == s
  {
    if s != [] {
      assert LeadingSpaces(s) == 0;
      assert s[0..] == s;
    }
  }

  /** `strip()` is idempotent. */
  lemma StripIdempotent(s: string)
    ensures Strip(Strip(s)) == Strip(s)
  {
    StripUnchanged(Strip(s));
  }

  // ---------------------------------------------------------------------------
  // Substring search: `p in s`, `s.find(p)`, `s.startswith(p)`

  /** `p` occurs in `s` starting at index `i`. */
  predicate OccursAt(s: string, p: string, i: nat) {
    i + |p| <= |s| && s[i..i + |p|] == p
  }

  /** The first index at or after `i` where `p` occurs in `s`. */
  function FindFrom(s: string, p: string, i: nat): (r: Option<nat>)
    ensures r.Some? ==> i <= r.value && OccursAt(s, p, r.value)
    ensures r.Some? ==> forall k :: i <= k < r.value ==> !OccursAt(s, p, k)
    ensures r.None? ==> forall k :: i <= k ==> !OccursAt(s, p, k)
    decreases |s| - i
  {
    if i + |p| > |s| then None
    else if OccursAt(s, p, i) then Some(i)
    else FindFrom(s, p, i + 1)
  }

  /** Python's `s.find(p)`, with `None` for -1. */
  function Find(s: string, p: string): Option<nat>
  {
    FindFrom(s, p, 0)
  }

  /** Python's `p in s`. */
  predicate Contains(s: string, p: string) {
    Find(s, p).Some?
  }

  /** Python's `s.startswith(p)`. */
  predicate StartsWith(s: string, p: string) {
    |p| <= |s| && s[..|p|] == p
  }

  /** The first occurrence is determined by where `p` occurs. */
  lemma FindIs(s: string, p: string, j: nat)
    requires OccursAt(s, p, j)
    requires forall k :: 0 <= k < j ==> !OccursAt(s, p, k)
    ensures Find(s, p) == Some(j)
  {
  }

  /** `p in s` exactly when `p` occurs at some index of `s`. */
  lemma ContainsAt(s: string, p: string, j: nat)
    requires OccursAt(s, p, j)
    ensures Contains(s, p)
  {
  }

  /** An occurrence inside `a` stays an occurrence in `a + b`, and vice versa. */
  lemma OccursAtPrefix(a: string, b: string, p: string, i: nat)
    requires i + |p| <= |a|
    ensures OccursAt(a + b, p, i) <==> OccursAt(a, p, i)
  {
    assert (a + b)[i..i + |p|] == a[i..i + |p|];
  }

  /** A slice of a slice is a slice of the whole string. */
  lemma SliceOfSlice(s: string, a: nat, b: nat, lo: nat, hi: nat)
    requires a <= b <= |s| && lo <= hi <= b - a
    ensures s[a..b][lo..hi] == s[a + lo..a + hi]
  {
    forall t | 0 <= t < hi - lo ensures s[a..b][lo..hi][t] == s[a + lo..a + hi][t] {
      assert s[a..b][lo + t] == s[a + lo + t];
    }
  }

  /** A slice holds `p` only where the whole string holds it within the slice's bounds. */
  lemma NoOccurrenceInSlice(s: string, a: nat, b: nat, p: string)
    requires a <= b <= |s|
    requires forall k :: a <= k && k + |p| <= b ==> !OccursAt(s, p, k)
    ensures !Contains(s[a..b], p)
  {
    forall k | 0 <= k ensures !OccursAt(s[a..b], p, k) {
      if k + |p| <= b - a {
        SliceOfSlice(s, a, b, k, k + |p|);
        assert !OccursAt(s, p, a + k);
      }
    }
  }


  /**
   * `p` is not in `s` when it does not occur at the front and its first character
   * appears nowhere else in `s`.
   */
  lemma NotContainsFront(s: string, p: string)
    requires |p| > 0
    requires !OccursAt(s, p, 0)
    requires forall k :: 0 < k < |s| ==> s[k] != p[0]
    ensures !Contains(s, p)
  {
    forall k | 0 < k ensures !OccursAt(s, p, k) {
      if k < |s| {
        assert s[k] != p[0];
      }
    }
  }

  /** A one-character pattern occurs where that character stands. */
  lemma OccursAtChar(s: string, c: char, i: nat)
    ensures OccursAt(s, [c], i) <==> i < |s| && s[i] == c
  {
    if i < |s| {
      assert s[i..i + 1] == [s[i]];
    }
  }

  // ---------------------------------------------------------------------------
  // split("\n") and "\n".join

  /** Python's `s.split("\n")`: never empty, no line holds a newline. */
  function SplitLines(s: string): (lines: seq<string>)
    ensures |lines| >= 1
    ensures forall k :: 0 <= k < |lines| ==> '\n' !in lines[k]
    decreases |s|
  {
    match Find(s, "\n")
    case None =>
      assert '\n' !in s by {
        forall k | 0 <= k < |s| ensures s[k] != '\n' { OccursAtChar(s, '\n', k); }
      }
      [s]
    case Some(i) =>
      assert '\n' !in s[..i] by {
        forall k | 0 <= k < i ensures s[k] != '\n' { OccursAtChar(s, '\n', k); }
      }
      [s[..i]] + SplitLines(s[i + 1..])
  }

  /** Python's `"\n".join(lines)`. */
  function JoinLines(lines: seq<string>): string
  {
    if |lines| == 0 then ""
    else if |lines| == 1 then lines[0]
    else JoinLines(lines[..|lines| - 1]) + "\n" + lines[|lines| - 1]
  }

  /** A string without newlines is a single line. */
  lemma SplitSingle(s: string)
    requires '\n' !in s
    ensures SplitLines(s) == [s]
  {
    forall k | 0 <= k ensures !OccursAt(s, "\n", k) { OccursAtChar(s, '\n', k); }
  }

  /** Splitting distributes over a newline: the basis of every line-by-line argument. */
  lemma {:induction false} SplitConcat(a: string, b: string)
    ensures SplitLines(a + "\n" + b) == SplitLines(a) + SplitLines(b)
    decreases |a|
  {
    var s := a + "\n" + b;
    match Find(a, "\n")
    case None =>
      forall k | 0 <= k < |a| ensures !OccursAt(s, "\n", k) {
        OccursAtChar(s, '\n', k);
        OccursAtChar(a, '\n', k);
      }
      OccursAtChar(s, '\n', |a|);
      FindIs(s, "\n", |a|);
      assert s[..|a|] == a;
      assert s[|a| + 1..] == b;
    case Some(i) =>
      forall k | 0 <= k <= i ensures OccursAt(s, "\n", k) <==> OccursAt(a, "\n", k) {
        OccursAtPrefix(a, "\n" + b, "\n", k);
        assert s == a + ("\n" + b);
      }
      FindIs(s, "\n", i);
      assert s[..i] == a[..i];
      assert s[i + 1..] == a[i + 1..] + "\n" + b;
      SplitConcat(a[i + 1..], b);
  }

  /** Splitting a joined list of newline-free lines gives the lines back. */
  lemma {:induction false} SplitJoin(lines: seq<string>)
    requires |lines| >= 1
    requires forall k :: 0 <= k < |lines| ==> '\n' !in lines[k]
    ensures SplitLines(JoinLines(lines)) == lines
  {
    if |lines| == 1 {
      SplitSingle(lines[0]);
    } else {
      var init := lines[..|lines| - 1];
      SplitJoin(init);
      SplitConcat(JoinLines(init), lines[|lines| - 1]);
      SplitSingle(lines[|lines| - 1]);
      assert init + [lines[|lines| - 1]] == lines;
    }
  }

  /** The lines of each element of `parts`, in order: what splitting their join gives. */
  function FlatSplit(parts: seq<string>): seq<string>
  {
    if |parts| == 0 then [] else FlatSplit(parts[..|parts| - 1]) + SplitLines(parts[|parts| - 1])
  }

  /** Splitting a joined list gives the lines of every element, even of elements holding newlines. */
  lemma {:induction false} SplitJoinFlat(parts: seq<string>)
    requires |parts| >= 1
    ensures SplitLines(JoinLines(parts)) == FlatSplit(parts)
  {
    if |parts| > 1 {
      var init := parts[..|parts| - 1];
      SplitJoinFlat(init);
      SplitConcat(JoinLines(init), parts[|parts| - 1]);
    }
  }

  /** `FlatSplit` distributes over concatenation. */
  lemma {:induction false} FlatSplitConcat(a: seq<string>, b: seq<string>)
    ensures FlatSplit(a + b) == FlatSplit(a) + FlatSplit(b)
    decreases |b|
  {
    if |b| == 0 {
      assert a + b == a;
    } else {
      var b' := b[..|b| - 1];
      assert (a + b)[..|a + b| - 1] == a + b';
      FlatSplitConcat(a, b');
    }
  }

  /** Newline-free elements are their own lines. */
  lemma {:induction false} FlatSplitSingles(parts: seq<string>)
    requires forall k :: 0 <= k < |parts| ==> '\n' !in parts[k]
    ensures FlatSplit(parts) == parts
  {
    if |parts| > 0 {
      var init := parts[..|parts| - 1];
      FlatSplitSingles(init);
      SplitSingle(parts[|parts| - 1]);
      assert init + [parts[|parts| - 1]] == parts;
    }
  }

  /** Appending one more element to a non-empty list before joining adds one newline. */
  lemma JoinAppend(lines: seq<string>, x: string)
    requires |lines| >= 1
    ensures JoinLines(lines + [x]) == JoinLines(lines) + "\n" + x
  {
    assert (lines + [x])[..|lines|] == lines;
  }

  /** Putting one more element in front of a non-empty list before joining adds one newline. */
  lemma {:induction false} JoinPrepend(x: string, lines: seq<string>)
    requires |lines| >= 1
    ensures JoinLines([x] + lines) == x + "\n" + JoinLines(lines)
    decreases |lines|
  {
    var all := [x] + lines;
    if |lines| == 1 {
      assert all[..1] == [x];
    } else {
      var init := lines[..|lines| - 1];
      assert all[..|all| - 1] == [x] + init;
      JoinPrepend(x, init);
    }
  }

  /** Joining the lines of `s` with newlines gives `s` back: `"\n".join(s.split("\n")) == s`. */
  lemma {:induction false} JoinSplit(s: string)
    ensures JoinLines(SplitLines(s)) == s
    decreases |s|
  {
    match Find(s, "\n")
    case None =>
    case Some(i) =>
      var rest := SplitLines(s[i + 1..]);
      assert SplitLines(s) == [s[..i]] + rest;
      OccursAtChar(s, '\n', i);
      JoinSplit(s[i + 1..]);
      JoinPrepend(s[..i], rest);
      Rejoin(s, i);
  }

  /** A string is its prefix, the character at `i` and its suffix. */
  lemma Rejoin(s: string, i: nat)
    requires i < |s|
    ensures s == s[..i] + [s[i]] + s[i + 1..]
  {
  }

  // ---------------------------------------------------------------------------
  // s.replace(p, "")

  /** Python's `s.replace(p, "")` for a non-empty `p`: removes occurrences left to right. */
  function RemoveAll(s: string, p: string): (r: string)
    requires |p| > 0
    ensures |r| <= |s|
    decreases |s|
  {
    if |s| < |p| then s
    else if s[..|p|] == p then RemoveAll(s[|p|..], p)
    else [s[0]] + RemoveAll(s[1..], p)
  }

  /** Removing a pattern that does not occur changes nothing. */
  lemma {:induction false} RemoveAllAbsent(s: string, p: string)
    requires |p| > 0
    requires !Contains(s, p)
    ensures RemoveAll(s, p) == s
    decreases |s|
  {
    if |s| >= |p| {
      assert !OccursAt(s, p, 0);
      forall k | 0 <= k ensures !OccursAt(s[1..], p, k) {
        if k + |p| <= |s| - 1 {
          assert s[1..][k..k + |p|] == s[k + 1..k + 1 + |p|];
        }
        assert !OccursAt(s, p, k + 1);
      }
      RemoveAllAbsent(s[1..], p);
    }
  }

  // ---------------------------------------------------------------------------
  // str(int) and int(<digits>)

  predicate IsDigit(c: char) {
    '0' <= c <= '9'
  }

  function Digit(d: nat): (c: char)
    requires d < 10
    ensures IsDigit(c)
  {
    ('0' as int + d) as char
  }

  function DigitValue(c: char): (d: nat)
    requires IsDigit(c)
    ensures d < 10 && Digit(d) == c
  {
    c as int - '0' as int
  }

  predicate AllDigits(s: string) {
    forall k :: 0 <= k < |s| ==> IsDigit(s[k])
  }

  /** Python's `str(n)` for a non-negative integer: a non-empty run of decimal digits. */
  function NatText(n: nat): (t: string)
    ensures |t| >= 1 && AllDigits(t)
    ensures n >= 10 <==> |t| >= 2
    ensures |t| >= 2 ==> t[0] != '0'
  {
    if n < 10 then [Digit(n)] else NatText(n / 10) + [Digit(n % 10)]
  }

  /** Python's `str(i)` for any integer. */
  function IntText(i: int): (t: string)
    ensures |t| >= 1
  {
    if i < 0 then "-" + NatText(-i) else NatText(i)
  }

  /** Python's `int(t)` for a run of decimal digits (leading zeros allowed). */
  function ParseDecimal(t: string): nat
    requires AllDigits(t)
  {
    if t == [] then 0 else ParseDecimal(t[..|t| - 1]) * 10 + DigitValue(t[|t| - 1])
  }

  /** `int(str(n)) == n`. */
  lemma {:induction false} ParseNatText(n: nat)
    ensures ParseDecimal(NatText(n)) == n
  {
    if n >= 10 {
      var t := NatText(n);
      assert t[..|t| - 1] == NatText(n / 10);
      ParseNatText(n / 10);
    }
  }

  // ---------------------------------------------------------------------------
  // f"{x:.<places>f}"

  function Pow10(k: nat): (p: nat)
    ensures p >= 1
  {
    if k == 0 then 1 else 10 * Pow10(k - 1)
  }

  /** How far the integer `m` lies from `r`. */
  function Distance(m: int, r: real): (d: real)
    ensures d >= 0.0
  {
    if m as real <= r then r - m as real else m as real - r
  }

  /** An integer within one half of `r` is as near to `r` as any integer. */
  lemma HalfwayIsNearest(r: real, n: int)
    requires Distance(n, r) <= 0.5
    ensures forall m: int :: Distance(n, r) <= Distance(m, r)
  {
    forall m: int ensures Distance(n, r) <= Distance(m, r) {
      if m < n {
        assert m as real <= n as real - 1.0;
      } else if m > n {
        assert m as real >= n as real + 1.0;
      }
    }
  }

  /** The integer nearest to `r`, ties to the even neighbour, as Python rounds when formatting. */
  function RoundHalfEven(r: real): (n: nat)
    requires r >= 0.0
    ensures n as real - 0.5 <= r <= n as real + 0.5
    ensures forall m: int :: Distance(n, r) <= Distance(m, r)
    ensures r - r.Floor as real == 0.5 ==> n % 2 == 0
  {
    var f := r.Floor;
    var frac := r - f as real;
    var n := if frac > 0.5 || (frac == 0.5 && f % 2 == 1) then f + 1 else f;
    HalfwayIsNearest(r, n);
    n
  }

  /** `t` left-padded with zeros to at least `width` characters. */
  function PadZeros(t: string, width: nat): (r: string)
    ensures |r| >= width && |r| >= |t|
    ensures AllDigits(t) ==> AllDigits(r)
    decreases width - |t|
  {
    if |t| >= width then t else PadZeros("0" + t, width)
  }

  /** A character a fixed-point rendering may hold. */
  predicate IsNumeral(c: char) {
    IsDigit(c) || c == '-' || c == '.'
  }

  /** Only digits, `-` and `.`. */
  predicate AllNumerals(t: string) {
    forall k :: 0 <= k < |t| ==> IsNumeral(t[k])
  }

  lemma NumeralsConcat(a: string, b: string)
    requires AllNumerals(a) && AllNumerals(b)
    ensures AllNumerals(a + b)
  {
  }

  lemma DigitsAreNumerals(t: string)
    requires AllDigits(t)
    ensures AllNumerals(t)
  {
  }

  /** `n // 10**places`, one decimal digit at a time. */
  function WholePart(n: nat, places: nat): nat {
    if places == 0 then n else WholePart(n / 10, places - 1)
  }

  /** `n % 10**places`, one decimal digit at a time. */
  function FractionPart(n: nat, places: nat): nat {
    if places == 0 then 0 else n % 10 + 10 * FractionPart(n / 10, places - 1)
  }

  /** The two parts recombine to `n`, and the fraction part is below `10**places`. */
  lemma {:induction false} WholeFraction(n: nat, places: nat)
    ensures WholePart(n, places) * Pow10(places) + FractionPart(n, places) == n
    ensures FractionPart(n, places) < Pow10(places)
  {
    if places > 0 {
      WholeFraction(n / 10, places - 1);
      var w, q := WholePart(n / 10, places - 1), Pow10(places - 1);
      assert w * (10 * q) == 10 * (w * q);
    }
  }

  /** A number below `10**width` has at most `width` digits (one, when `width` is zero). */
  lemma {:induction false} NatTextShort(m: nat, width: nat)
    requires m < Pow10(width)
    ensures |NatText(m)| <= if width == 0 then 1 else width
  {
    if m >= 10 {
      assert width > 0;
      NatTextShort(m / 10, width - 1);
    }
  }

  /** A leading zero does not change the value of a run of digits. */
  lemma {:induction false} ParseLeadingZero(t: string)
    requires AllDigits(t)
    ensures AllDigits("0" + t) && ParseDecimal("0" + t) == ParseDecimal(t)
  {
    var z := "0" + t;
    if t != [] {
      assert z[..|z| - 1] == "0" + t[..|t| - 1];
      ParseLeadingZero(t[..|t| - 1]);
    } else {
      assert z[..0] == [];
    }
  }

  /** Padding digits no wider than `width` gives exactly `width` digits of the same value. */
  lemma {:induction false} PadZerosExact(t: string, width: nat)
    requires AllDigits(t) && |t| <= width
    ensures |PadZeros(t, width)| == width
    ensures ParseDecimal(PadZeros(t, width)) == ParseDecimal(t)
    decreases width - |t|
  {
    if |t| < width {
      ParseLeadingZero(t);
      PadZerosExact("0" + t, width);
    }
  }

  /** How many characters follow the integer part: the point and the fraction digits, if any. */
  function PointWidth(places: nat): nat {
    if places == 0 then 0 else places + 1
  }

  /** The integer digits of a fixed-point rendering: everything before the point. */
  function IntegerDigits(body: string, places: nat): string
    requires |body| >= PointWidth(places)
  {
    body[..|body| - PointWidth(places)]
  }

  /** The fraction digits of a fixed-point rendering: its last `places` characters. */
  function FractionDigits(body: string, places: nat): string
    requires |body| >= places
  {
    body[|body| - places..]
  }

  /**
   * The shape of an unsigned fixed-point rendering: a non-empty run of digits without a
   * superfluous leading zero, then, when `places > 0`, one point and exactly `places` digits.
   */
  predicate FixedLayout(body: string, places: nat) {
    && |body| > PointWidth(places)
    && var whole := IntegerDigits(body, places);
    && AllDigits(whole)
    && (|whole| == 1 || whole[0] != '0')
    && (places > 0 ==> body[|whole|] == '.' && AllDigits(FractionDigits(body, places)))
  }

  /** The number such a rendering spells, scaled by `10**places`: its digits with the point removed. */
  function FixedValue(body: string, places: nat): nat
    requires FixedLayout(body, places)
  {
    var whole := ParseDecimal(IntegerDigits(body, places));
    if places == 0 then whole else whole * Pow10(places) + ParseDecimal(FractionDigits(body, places))
  }

  /** Integer digits, a point and `places` padded fraction digits spell `w * 10**places + f`. */
  lemma PointedLayout(w: nat, f: nat, places: nat)
    requires places > 0 && f < Pow10(places)
    ensures var t := NatText(w) + "." + PadZeros(NatText(f), places);
      FixedLayout(t, places) && FixedValue(t, places) == w * Pow10(places) + f
  {
    var whole, short := NatText(w), NatText(f);
    NatTextShort(f, places);
    PadZerosExact(short, places);
    ParseNatText(w);
    ParseNatText(f);
    LayoutOfParts(whole, PadZeros(short, places), places);
  }

  /** Digits without a superfluous leading zero, a point and `places` digits form a layout. */
  lemma LayoutOfParts(whole: string, fraction: string, places: nat)
    requires |whole| >= 1 && AllDigits(whole) && (|whole| == 1 || whole[0] != '0')
    requires places > 0 && |fraction| == places && AllDigits(fraction)
    ensures var t := whole + "." + fraction;
      FixedLayout(t, places) && FixedValue(t, places) == ParseDecimal(whole) * Pow10(places) + ParseDecimal(fraction)
  {
    PointedSlices(whole, fraction);
    var t := whole + "." + fraction;
    assert IntegerDigits(t, places) == whole;
    assert FractionDigits(t, places) == fraction;
  }

  /** The pieces of `whole + "." + fraction`, read back by position. */
  lemma PointedSlices(whole: string, fraction: string)
    ensures var t := whole + "." + fraction;
      && t[..|whole|] == whole
      && t[|whole|] == '.'
      && t[|t| - |fraction|..] == fraction
  {
    var t := whole + "." + fraction;
    assert t[..|whole|] == whole;
    assert t[|t| - |fraction|..] == fraction;
  }

  /** A decimal rendering of a natural number without a point, when `places` is zero. */
  lemma PlainLayout(n: nat)
    ensures FixedLayout(NatText(n), 0) && FixedValue(NatText(n), 0) == n
  {
    var t := NatText(n);
    ParseNatText(n);
    assert IntegerDigits(t, 0) == t;
  }

  /** `n / 10**places` written with exactly `places` fraction digits, after a point when there are any. */
  function FixedDigits(n: nat, places: nat): (t: string)
    ensures |t| >= 1 + places
    ensures AllNumerals(t)
    ensures FixedLayout(t, places) && FixedValue(t, places) == n
  {
    var t := if places == 0 then NatText(n)
      else NatText(WholePart(n, places)) + "." + PadZeros(NatText(FractionPart(n, places)), places);
    if places == 0 then
      PlainLayout(n);
      DigitsAreNumerals(t);
      t
    else
      WholeFraction(n, places);
      PointedLayout(WholePart(n, places), FractionPart(n, places), places);
      LayoutNumerals(t, places);
      t
  }

  /** Every character of a fixed-point layout is a numeral, and the first is a digit. */
  lemma LayoutNumerals(t: string, places: nat)
    requires FixedLayout(t, places)
    ensures AllNumerals(t) && IsDigit(t[0])
  {
    var whole := IntegerDigits(t, places);
    assert IsDigit(whole[0]);
    forall k | 0 <= k < |t| ensures IsNumeral(t[k]) {
      if k < |whole| {
        assert t[k] == whole[k];
      } else if k > |whole| {
        assert t[k] == FractionDigits(t, places)[k - |whole| - 1];
      }
    }
  }

  /** The magnitude of `x` times `10**places`: the quantity fixed-point formatting rounds. */
  function Scaled(x: real, places: nat): (r: real)
    ensures r >= 0.0
  {
    var magnitude := if x < 0.0 then -x else x;
    var p := Pow10(places) as real;
    assert magnitude * p >= magnitude * 1.0;
    magnitude * p
  }

  /**
   * Python's fixed-point formatting `f"{x:.<places>f}"` of a real: a minus sign exactly when
   * `x` is negative, then the magnitude times `10**places`, rounded half to even, laid out
   * with `places` fraction digits.
   */
  function FormatFixed(x: real, places: nat): (t: string)
    ensures |t| >= 1 + places
    ensures AllNumerals(t)
    ensures t[0] == '-' <==> x < 0.0
    ensures var body := if x < 0.0 then t[1..] else t;
      && FixedLayout(body, places)
      && FixedValue(body, places) == RoundHalfEven(Scaled(x, places))
  {
    var digits := FixedDigits(RoundHalfEven(Scaled(x, places)), places);
    LayoutNumerals(digits, places);
    if x < 0.0 then
      NumeralsConcat("-", digits);
      assert ("-" + digits)[1..] == digits;
      "-" + digits
    else
      digits
  }
}
