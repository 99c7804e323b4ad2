/**
 * The price formatter and parser of the event form.
 *
 * `formatRupiah` prefixes `Rp` and runs the global replace
 * `\B(?=(\d{3})+(?!\d))` -> `.` over the value's text, which puts a `.` in front
 * of every group of three digits counted from the right; `parseRupiah` removes
 * every character that is not a decimal digit. The price input shows
 * `formatRupiah(harga)` and stores `parseRupiah(text typed)`, so the two must
 * form a round trip on digit strings.
 */
module Rupiah {

  predicate IsDigit(c: char) {
    '0' <= c <= '9'
  }

  /** The characters of the regular-expression class `\w`. */
  predicate IsWordChar(c: char) {
    IsDigit(c) || 'a' <= c <= 'z' || 'A' <= c <= 'Z' || c == '_'
  }

  predicate AllDigits(s: string) {
    forall i :: 0 <= i < |s| ==> IsDigit(s[i])
  }

  /** `Number.MAX_SAFE_INTEGER`, 2^53 - 1. */
  const MaxSafeInteger: nat := 9007199254740991

  /** The numbers JavaScript holds exactly as integers, non-negative ones only. */
  type SafeInteger = n: nat | n <= MaxSafeInteger

  /** The argument of `formatRupiah`: a string, or a number (a non-negative safe integer). */
  datatype PriceValue = Text(s: string) | Amount(n: SafeInteger)

  /** JavaScript falsiness of the argument: the empty string or the number 0 (`"0"` is truthy). */
  predicate IsFalsy(v: PriceValue) {
    v == Text("") || v == Amount(0)
  }

  function DigitChar(d: nat): (c: char)
    requires d < 10
    ensures IsDigit(c)
  {
    ('0' as int + d) as char
  }

  /** The number a digit string denotes in base ten; the empty string denotes 0. */
  function DigitsValue(s: string): nat
    requires AllDigits(s)
  {
    if s == [] then 0 else 10 * DigitsValue(s[..|s| - 1]) + (s[|s| - 1] as int - '0' as int)
  }

  /**
   * `Number.prototype.toString()` of a non-negative integer below 10^21 (where
   * JavaScript switches to exponent notation): its decimal digits, without
   * leading zeros, denoting the number.
   */
  function DecimalString(n: nat): (r: string)
    ensures |r| > 0 && AllDigits(r)
    ensures r[0] == '0' <==> n == 0
    ensures DigitsValue(r) == n
  {
    if n < 10 then [DigitChar(n)]
    else
      var front := DecimalString(n / 10);
      assert (front + [DigitChar(n % 10)])[..|front|] == front;
      front + [DigitChar(n % 10)]
  }

  /** `value.toString()`: a string is itself, a number its decimal digits. */
  function ToText(v: PriceValue): (t: string)
    ensures v.Text? ==> t == v.s
    ensures v.Amount? ==> t != "" && AllDigits(t) && DigitsValue(t) == v.n
  {
    match v
    case Text(s) => s
    case Amount(n) => DecimalString(n)
  }

  // ---------------------------------------------------------------------------
  // The regular expression \B(?=(\d{3})+(?!\d)), position by position
  // ---------------------------------------------------------------------------

  /** Position p holds a word character; positions outside the string do not. */
  predicate WordAt(s: string, p: int) {
    0 <= p < |s| && IsWordChar(s[p])
  }

  /** `\B` at position p: both neighbours are word characters, or neither is. */
  predicate NotWordBoundary(s: string, p: nat) {
    WordAt(s, p - 1) == WordAt(s, p)
  }

  /** Length of the longest run of digits that starts at position p. */
  function DigitRun(s: string, p: nat): (run: nat)
    requires p <= |s|
    ensures p + run <= |s|
    ensures forall k :: p <= k < p + run ==> IsDigit(s[k])
    ensures p + run == |s| || !IsDigit(s[p + run])
    decreases |s| - p
  {
    if p < |s| && IsDigit(s[p]) then 1 + DigitRun(s, p + 1) else 0
  }

  /** `(\d{3}){groups}(?!\d)` matches at position p. */
  predicate ThreeDigitGroups(s: string, p: nat, groups: nat)
    requires p <= |s|
  {
    && 1 <= groups && p + 3 * groups <= |s|
    && (forall k :: p <= k < p + 3 * groups ==> IsDigit(s[k]))
    && (p + 3 * groups == |s| || !IsDigit(s[p + 3 * groups]))
  }

  /** The lookahead `(?=(\d{3})+(?!\d))` succeeds at position p, read literally. */
  ghost predicate LookaheadAt(s: string, p: nat)
    requires p <= |s|
  {
    exists groups: nat :: ThreeDigitGroups(s, p, groups)
  }

  /**
   * The whole pattern matches the empty string at position p: `\B` holds there
   * and the lookahead, read literally, succeeds.
   */
  predicate SeparatorAt(s: string, p: nat)
    requires p <= |s|
    ensures SeparatorAt(s, p) <==> NotWordBoundary(s, p) && LookaheadAt(s, p)
  {
    LookaheadMatchesRun(s, p);
    var run := DigitRun(s, p);
    NotWordBoundary(s, p) && run > 0 && run % 3 == 0
  }

  /** A run of exactly m digits starting at p, followed by a non-digit or the end, is the maximal run. */
  lemma {:induction false} DigitRunIs(s: string, p: nat, m: nat)
    requires p + m <= |s|
    requires forall k :: p <= k < p + m ==> IsDigit(s[k])
    requires p + m == |s| || !IsDigit(s[p + m])
    ensures DigitRun(s, p) == m
    decreases m
  {
    if m > 0 {
      DigitRunIs(s, p + 1, m - 1);
    }
  }

  /** The literal reading of the lookahead agrees with the one `SeparatorAt` uses. */
  lemma LookaheadMatchesRun(s: string, p: nat)
    requires p <= |s|
    ensures LookaheadAt(s, p) <==> (DigitRun(s, p) > 0 && DigitRun(s, p) % 3 == 0)
  {
    var run := DigitRun(s, p);
    if run > 0 && run % 3 == 0 {
      assert ThreeDigitGroups(s, p, run / 3);
    }
    if LookaheadAt(s, p) {
      var groups: nat :| ThreeDigitGroups(s, p, groups);
      DigitRunIs(s, p, 3 * groups);
    }
  }

  /**
   * The global replace over the first j characters: a `.` goes in front of every
   * position where the pattern matches. (At the end of the string the digit run
   * is empty, so no match is lost by stopping at |s| - 1.)
   */
  function SeparateUpTo(s: string, j: nat): (r: string)
    requires j <= |s|
    ensures |r| >= j
  {
    if j == 0 then []
    else SeparateUpTo(s, j - 1) + (if SeparatorAt(s, j - 1) then "." else "") + [s[j - 1]]
  }

  function Separate(s: string): (r: string)
    ensures |r| >= |s|
  {
    SeparateUpTo(s, |s|)
  }

  /** `formatRupiah`: empty for a falsy value, otherwise `Rp` and the separated text. */
  function FormatRupiah(v: PriceValue): (r: string)
    ensures r == "" <==> IsFalsy(v)
    ensures r != "" ==> |r| > 2 && r[..2] == "Rp"
  {
    if IsFalsy(v) then "" else "Rp" + Separate(ToText(v))
  }

  /** `parseRupiah`: the global replace `[^\d]` -> "" (JavaScript's `\d` is ASCII 0-9). */
  function ParseRupiah(s: string): (r: string)
    ensures AllDigits(r)
    ensures |r| <= |s|
  {
    if s == [] then []
    else (if IsDigit(s[0]) then [s[0]] else []) + ParseRupiah(s[1..])
  }

  // ---------------------------------------------------------------------------
  // Parsing
  // ---------------------------------------------------------------------------

  lemma ParseSingle(c: char)
    ensures ParseRupiah([c]) == if IsDigit(c) then [c] else []
  {
    assert [c][1..] == [];
  }

  /** Parsing leaves a string unchanged exactly when the string is all digits. */
  lemma {:induction false} ParseKeepsDigitStrings(s: string)
    ensures ParseRupiah(s) == s <==> AllDigits(s)
  {
    if s != [] {
      ParseKeepsDigitStrings(s[1..]);
      if AllDigits(s) {
        assert AllDigits(s[1..]);
        assert s == [s[0]] + s[1..];
      }
    }
  }

  lemma ParseIdempotent(s: string)
    ensures ParseRupiah(ParseRupiah(s)) == ParseRupiah(s)
  {
    ParseKeepsDigitStrings(ParseRupiah(s));
  }

  /** Parsing works character by character: it keeps the digits of each part, in order. */
  lemma {:induction false} ParseConcat(a: string, b: string)
    ensures ParseRupiah(a + b) == ParseRupiah(a) + ParseRupiah(b)
  {
    if a == [] {
      assert a + b == b;
    } else {
      assert (a + b)[0] == a[0];
      assert (a + b)[1..] == a[1..] + b;
      ParseConcat(a[1..], b);
    }
  }

  lemma ParseConcatThree(a: string, b: string, c: string)
    ensures ParseRupiah(a + b + c) == ParseRupiah(a) + ParseRupiah(b) + ParseRupiah(c)
  {
    ParseConcat(a + b, c);
    ParseConcat(a, b);
  }

  // ---------------------------------------------------------------------------
  // Formatting keeps the digits
  // ---------------------------------------------------------------------------

  /** One step of the replace adds the step's character to the digits, and nothing else. */
  lemma ParseStep(s: string, j: nat)
    requires 0 < j <= |s|
    ensures ParseRupiah(SeparateUpTo(s, j)) == ParseRupiah(SeparateUpTo(s, j - 1)) + ParseRupiah([s[j - 1]])
  {
    var prev, c := SeparateUpTo(s, j - 1), [s[j - 1]];
    if SeparatorAt(s, j - 1) {
      MatchStep(s, j);
      ParseConcatThree(prev, ".", c);
      ParseSingle('.');
    } else {
      NoMatchStep(s, j);
      ParseConcat(prev, c);
    }
  }

  /** Inserting separators changes no digit: the digits of the output are those of the input. */
  lemma {:induction false} SeparateKeepsDigits(s: string, j: nat)
    requires j <= |s|
    ensures ParseRupiah(SeparateUpTo(s, j)) == ParseRupiah(s[..j])
  {
    if j > 0 {
      ParseStep(s, j);
      SeparateKeepsDigits(s, j - 1);
      ParseConcat(s[..j - 1], [s[j - 1]]);
      assert s[..j] == s[..j - 1] + [s[j - 1]];
    }
  }

  /** Parsing a formatted value gives the digits of the value's text (nothing for a falsy value). */
  lemma FormatThenParse(v: PriceValue)
    ensures ParseRupiah(FormatRupiah(v)) == if IsFalsy(v) then "" else ParseRupiah(ToText(v))
  {
    if !IsFalsy(v) {
      var t := ToText(v);
      ParseConcat("Rp", Separate(t));
      assert ParseRupiah("Rp") == [];
      SeparateKeepsDigits(t, |t|);
      assert t[..|t|] == t;
    }
  }

  /** The price input's round trip: every digit string, including "" and ones with leading zeros, comes back unchanged. */
  lemma RoundTrip(x: string)
    requires AllDigits(x)
    ensures ParseRupiah(FormatRupiah(Text(x))) == x
  {
    FormatThenParse(Text(x));
    ParseKeepsDigitStrings(x);
  }

  /** A number is formatted to text that parses back to its decimal digits, which denote the number; 0 gives "". */
  lemma AmountRoundTrip(n: SafeInteger)
    ensures ParseRupiah(FormatRupiah(Amount(n))) == if n == 0 then "" else DecimalString(n)
    ensures n > 0 ==> DigitsValue(ParseRupiah(FormatRupiah(Amount(n)))) == n
  {
    FormatThenParse(Amount(n));
    ParseKeepsDigitStrings(DecimalString(n));
  }

  // ---------------------------------------------------------------------------
  // Where the separators go on a digit string
  // ---------------------------------------------------------------------------

  /** Reference grouping: the digits in groups of three counted from the right, joined by `.`. */
  function Grouped(d: string): string
    decreases |d|
  {
    if |d| <= 3 then d else Grouped(d[..|d| - 3]) + "." + d[|d| - 3..]
  }

  /** On a digit string the pattern matches exactly at the inner positions a multiple of three from the end. */
  lemma DigitSeparator(d: string, p: nat)
    requires AllDigits(d) && p <= |d|
    ensures SeparatorAt(d, p) <==> 0 < p < |d| && (|d| - p) % 3 == 0
  {
    DigitRunIs(d, p, |d| - p);
  }

  /** The replace over a prefix depends only on that prefix and on where the pattern matches in it. */
  lemma {:induction false} SeparateUpToAgree(s: string, t: string, j: nat)
    requires j <= |s| && j <= |t|
    requires s[..j] == t[..j]
    requires forall p :: 0 <= p < j ==> SeparatorAt(s, p) == SeparatorAt(t, p)
    ensures SeparateUpTo(s, j) == SeparateUpTo(t, j)
  {
    if j > 0 {
      assert s[..j - 1] == s[..j][..j - 1] && t[..j - 1] == t[..j][..j - 1];
      assert s[j - 1] == s[..j][j - 1] && t[j - 1] == t[..j][j - 1];
      SeparateUpToAgree(s, t, j - 1);
    }
  }

  /** Three digits or fewer get no separator. */
  lemma {:induction false} ShortNoSeparators(d: string, j: nat)
    requires AllDigits(d) && |d| <= 3 && j <= |d|
    ensures SeparateUpTo(d, j) == d[..j]
  {
    if j > 0 {
      ShortNoSeparators(d, j - 1);
      DigitSeparator(d, j - 1);
      assert d[..j] == d[..j - 1] + [d[j - 1]];
    }
  }

  /** The pattern matches three digits before the end of a digit string, and not after. */
  lemma LastSeparators(d: string)
    requires AllDigits(d) && |d| > 3
    ensures SeparatorAt(d, |d| - 3) && !SeparatorAt(d, |d| - 2) && !SeparatorAt(d, |d| - 1)
  {
    DigitSeparator(d, |d| - 3);
    DigitSeparator(d, |d| - 2);
    DigitSeparator(d, |d| - 1);
  }

  /** One step of the replace where the pattern matches: a dot, then the character. */
  lemma MatchStep(s: string, j: nat)
    requires 0 < j <= |s| && SeparatorAt(s, j - 1)
    ensures SeparateUpTo(s, j) == SeparateUpTo(s, j - 1) + "." + [s[j - 1]]
  {
  }

  /** One step of the replace where the pattern does not match: the character alone. */
  lemma NoMatchStep(s: string, j: nat)
    requires 0 < j <= |s| && !SeparatorAt(s, j - 1)
    ensures SeparateUpTo(s, j) == SeparateUpTo(s, j - 1) + [s[j - 1]]
  {
  }

  /** Three steps of the replace where the pattern matches before the first character only. */
  lemma ThreeSteps(s: string, j: nat)
    requires 3 <= j <= |s|
    requires SeparatorAt(s, j - 3) && !SeparatorAt(s, j - 2) && !SeparatorAt(s, j - 1)
    ensures SeparateUpTo(s, j) == SeparateUpTo(s, j - 3) + "." + s[j - 3..j]
  {
    MatchStep(s, j - 2);
    NoMatchStep(s, j - 1);
    NoMatchStep(s, j);
    AppendThree(SeparateUpTo(s, j - 3) + ".", s, j - 3);
  }

  /** Appending the three elements of t from i one by one appends t[i..i + 3]. */
  lemma AppendThree<T>(front: seq<T>, t: seq<T>, i: nat)
    requires i + 3 <= |t|
    ensures front + [t[i]] + [t[i + 1]] + [t[i + 2]] == front + t[i..i + 3]
  {
    assert t[i..i + 3] == [t[i], t[i + 1], t[i + 2]];
  }

  /** On more than three digits, the last three characters of the output are a dot and the last three digits. */
  lemma SeparateLastGroup(d: string)
    requires AllDigits(d) && |d| > 3
    ensures SeparateUpTo(d, |d|) == SeparateUpTo(d, |d| - 3) + "." + d[|d| - 3..]
  {
    LastSeparators(d);
    ThreeSteps(d, |d|);
    assert d[|d| - 3..|d|] == d[|d| - 3..];
  }

  /** Dropping the last three digits changes no match before them. */
  lemma HeadSeparator(d: string, p: nat)
    requires AllDigits(d) && |d| > 3 && p < |d| - 3
    ensures SeparatorAt(d, p) == SeparatorAt(d[..|d| - 3], p)
  {
    DigitSeparator(d, p);
    DigitSeparator(d[..|d| - 3], p);
  }

  /** Up to the last three digits, the replace over d is the replace over d without them. */
  lemma SeparateHead(d: string)
    requires AllDigits(d) && |d| > 3
    ensures SeparateUpTo(d, |d| - 3) == Separate(d[..|d| - 3])
  {
    var n := |d|;
    var head := d[..n - 3];
    forall p | 0 <= p < n - 3
      ensures SeparatorAt(d, p) == SeparatorAt(head, p)
    {
      HeadSeparator(d, p);
    }
    assert d[..n - 3] == head[..n - 3];
    SeparateUpToAgree(d, head, n - 3);
  }

  lemma ShortGrouping(d: string)
    requires AllDigits(d) && |d| <= 3
    ensures Separate(d) == Grouped(d)
  {
    ShortNoSeparators(d, |d|);
    assert d[..|d|] == d;
  }

  /** On a digit string the regular-expression replace is the right-to-left grouping. */
  lemma {:induction false} SeparateIsGrouping(d: string)
    requires AllDigits(d)
    ensures Separate(d) == Grouped(d)
    decreases |d|
  {
    var n := |d|;
    if n <= 3 {
      ShortGrouping(d);
    } else {
      var head, tail := d[..n - 3], d[n - 3..];
      calc {
        Separate(d);
        { SeparateLastGroup(d); }
        SeparateUpTo(d, n - 3) + "." + tail;
        { SeparateHead(d); }
        Separate(head) + "." + tail;
        { SeparateIsGrouping(head); }
        Grouped(head) + "." + tail;
      }
    }
  }

  function Occurrences(c: char, s: string): nat {
    if s == [] then 0 else (if s[0] == c then 1 else 0) + Occurrences(c, s[1..])
  }

  lemma {:induction false} OccurrencesConcat(c: char, a: string, b: string)
    ensures Occurrences(c, a + b) == Occurrences(c, a) + Occurrences(c, b)
  {
    if a != [] {
      assert (a + b)[0] == a[0];
      assert (a + b)[1..] == a[1..] + b;
      OccurrencesConcat(c, a[1..], b);
    } else {
      assert a + b == b;
    }
  }

  lemma {:induction false} NoDotInDigits(s: string)
    requires AllDigits(s)
    ensures Occurrences('.', s) == 0
  {
    if s != [] {
      NoDotInDigits(s[1..]);
    }
  }

  /** Grouping more than three digits adds one dot to the dots of the head's grouping. */
  lemma GroupedDotsStep(d: string)
    requires AllDigits(d) && |d| > 3
    ensures Occurrences('.', Grouped(d)) == Occurrences('.', Grouped(d[..|d| - 3])) + 1
  {
    var g, tail := Grouped(d[..|d| - 3]), d[|d| - 3..];
    assert AllDigits(tail);
    NoDotInDigits(tail);
    OccurrencesConcat('.', g + ".", tail);
    OccurrencesConcat('.', g, ".");
    assert Occurrences('.', ".") == 1;
  }

  /** The grouping of n digits holds (n - 1) / 3 dots. */
  lemma {:induction false} GroupedDots(d: string)
    requires AllDigits(d) && d != ""
    ensures Occurrences('.', Grouped(d)) == (|d| - 1) / 3
    decreases |d|
  {
    var n := |d|;
    if n <= 3 {
      NoDotInDigits(d);
    } else {
      var head := d[..n - 3];
      assert AllDigits(head);
      GroupedDots(head);
      GroupedDotsStep(d);
      assert (n - 1) / 3 == (n - 4) / 3 + 1;
    }
  }

  /** The grouping starts with the first digit, never with a dot. */
  lemma {:induction false} GroupedFirst(d: string)
    requires d != ""
    ensures Grouped(d)[0] == d[0]
    decreases |d|
  {
    if |d| > 3 {
      GroupedFirst(d[..|d| - 3]);
    }
  }

  /** Parsing the grouping of more than three digits: the parsed grouping of the head, then the last three digits. */
  lemma GroupedLastGroupDigits(d: string)
    requires |d| > 3
    ensures ParseRupiah(Grouped(d)) == ParseRupiah(Grouped(d[..|d| - 3])) + ParseRupiah(d[|d| - 3..])
  {
    ParseConcatThree(Grouped(d[..|d| - 3]), ".", d[|d| - 3..]);
    ParseSingle('.');
  }

  /** The grouping keeps every digit, in order. */
  lemma {:induction false} GroupedDigits(d: string)
    requires AllDigits(d)
    ensures ParseRupiah(Grouped(d)) == d
    decreases |d|
  {
    if |d| <= 3 {
      ParseKeepsDigitStrings(d);
    } else {
      var head, tail := d[..|d| - 3], d[|d| - 3..];
      DigitsSplit(d, |d| - 3);
      GroupedLastGroupDigits(d);
      GroupedDigits(head);
      ParseKeepsDigitStrings(tail);
    }
  }

  /** Both parts of a digit string are digit strings, and together they are the string. */
  lemma DigitsSplit(d: string, i: nat)
    requires AllDigits(d) && i <= |d|
    ensures AllDigits(d[..i]) && AllDigits(d[i..]) && d[..i] + d[i..] == d
  {
  }

  /**
   * A non-empty digit string of length n is shown as `Rp`, then the same digits in
   * order with a `.` in front of each three-digit group counted from the right:
   * (n - 1) / 3 dots, and the first character after `Rp` is the first digit, never a dot.
   */
  lemma FormatDigitString(x: string)
    requires AllDigits(x) && x != ""
    ensures FormatRupiah(Text(x)) == "Rp" + Grouped(x)
    ensures Occurrences('.', FormatRupiah(Text(x))) == (|x| - 1) / 3
    ensures FormatRupiah(Text(x))[2] == x[0]
  {
    SeparateIsGrouping(x);
    GroupedFirst(x);
    GroupedDots(x);
    RpPrefix(Grouped(x));
  }

  /** The `Rp` prefix holds no dot and puts the text at index 2. */
  lemma RpPrefix(g: string)
    requires g != ""
    ensures Occurrences('.', "Rp" + g) == Occurrences('.', g)
    ensures ("Rp" + g)[2] == g[0]
  {
    OccurrencesConcat('.', "Rp", g);
    assert Occurrences('.', "Rp") == 0 by {
      assert "Rp"[1..] == "p" && "p"[1..] == "";
    }
  }

  /** `"0"` is not falsy, so it is shown as `Rp0`. */
  lemma FormatZeroText()
    ensures FormatRupiah(Text("0")) == "Rp0"
  {
    FormatDigitString("0");
  }
}
