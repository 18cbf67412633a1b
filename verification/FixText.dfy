/**
 The text routines of Go that the FIX gateway is built from: decimal printing and
 scanning of integers (`%d`), and cutting strings at a separator. Text is ASCII, one
 character per byte.
 */
module FixText {
  import opened Basics

  const INT64_MIN := -0x8000_0000_0000_0000
  const INT64_MAX := 0x7fff_ffff_ffff_ffff

  predicate IsInt64(n: int) {
    INT64_MIN <= n <= INT64_MAX
  }

  // ----- printing

  function Digit(d: nat): char
    requires d < 10
  {
    ('0' as int + d) as char
  }

  function Digits(n: nat): string {
    if n < 10 then [Digit(n)] else Digits(n / 10) + [Digit(n % 10)]
  }

  function FormatInt(n: int): string {
    if n < 0 then ['-'] + Digits(-n) else Digits(n)
  }

  // ----- scanning

  predicate IsDigit(c: char) {
    '0' <= c <= '9'
  }

  predicate AllDigits(s: string) {
    forall i :: 0 <= i < |s| ==> IsDigit(s[i])
  }

  function DigitsValue(s: string): nat
    requires AllDigits(s)
  {
    if s == [] then 0
    else 10 * DigitsValue(s[..|s| - 1]) + (s[|s| - 1] as int - '0' as int)
  }

  /** How many characters at the front are digits. */
  function DigitRun(s: string): (n: nat)
    ensures n <= |s|
    ensures AllDigits(s[..n])
  {
    if s == [] || !IsDigit(s[0]) then 0 else 1 + DigitRun(s[1..])
  }

  /** Blanks that `%d` skips; a newline is an error, as is any other non-digit. */
  predicate IsBlank(c: char) {
    c == ' ' || c == '\t' || c == '\r' || c as int == 11 || c as int == 12
  }

  function SkipBlanks(s: string): string {
    if s != [] && IsBlank(s[0]) then SkipBlanks(s[1..]) else s
  }

  /** `fmt.Sscanf(s, "%d", &n)`: blanks, an optional sign, digits; what follows is not
      read. No digits or a value outside 64 bits leave `n` as it was. */
  function ScanInt(s: string): Option<int> {
    var t := SkipBlanks(s);
    var signed := t != [] && (t[0] == '-' || t[0] == '+');
    var u := if signed then t[1..] else t;
    var n := DigitRun(u);
    if n == 0 then None
    else
      var size: int := DigitsValue(u[..n]);
      var v := if signed && t[0] == '-' then -size else size;
      if IsInt64(v) then Some(v) else None
  }

  lemma {:induction false} DigitsRoundTrip(n: nat)
    ensures Digits(n) != []
    ensures AllDigits(Digits(n)) && DigitsValue(Digits(n)) == n
  {
    if n < 10 {
      assert [Digit(n)][..0] == [];
      assert DigitsValue([]) == 0;
    } else {
      DigitsRoundTrip(n / 10);
      assert Digits(n)[..|Digits(n)| - 1] == Digits(n / 10);
    }
  }

  lemma {:induction false} DigitRunIsAll(s: string)
    requires AllDigits(s)
    ensures DigitRun(s) == |s|
  {
    if s != [] {
      DigitRunIsAll(s[1..]);
    }
  }

  /** Every 64-bit integer is read back as it was printed. */
  lemma {:induction false} ScanFormat(n: int)
    requires IsInt64(n)
    ensures ScanInt(FormatInt(n)) == Some(n)
  {
    hide Digits;
    var ds := Digits(if n < 0 then -n else n);
    DigitsRoundTrip(if n < 0 then -n else n);
    DigitRunIsAll(ds);
    assert IsDigit(ds[0]);
    assert ds[..|ds|] == ds;
    var s := FormatInt(n);
    assert SkipBlanks(s) == s;
    assert n < 0 ==> s[1..] == ds;
  }

  lemma {:induction false} FormatIntAt(n: int, i: nat)
    requires i < |FormatInt(n)|
    ensures FormatInt(n)[i] == '-' || IsDigit(FormatInt(n)[i])
  {
    DigitsRoundTrip(if n < 0 then -n else n);
  }

  // ----- cutting

  /** Where `c` first occurs, `|s|` if it does not. */
  function IndexOf(s: string, c: char): (k: nat)
    ensures k <= |s|
    ensures k < |s| ==> s[k] == c
  {
    if s == [] || s[0] == c then 0 else 1 + IndexOf(s[1..], c)
  }

  lemma {:induction false} IndexOfFirst(a: string, c: char, b: string)
    requires c !in a
    ensures IndexOf(a + [c] + b, c) == |a|
  {
    if a != [] {
      assert (a + [c] + b)[1..] == a[1..] + [c] + b;
      IndexOfFirst(a[1..], c, b);
    }
  }

  lemma {:induction false} IndexOfNone(a: string, c: char)
    requires c !in a
    ensures IndexOf(a, c) == |a|
  {
    if a != [] {
      IndexOfNone(a[1..], c);
    }
  }

  /** `strings.Split(s, c)` for a one-character separator. */
  function Split(s: string, c: char): seq<string>
    decreases |s|
  {
    var k := IndexOf(s, c);
    if k == |s| then [s] else [s[..k]] + Split(s[k + 1..], c)
  }

  /** `strings.TrimRight(s, c)`. */
  function TrimRight(s: string, c: char): string {
    if s != [] && s[|s| - 1] == c then TrimRight(s[..|s| - 1], c) else s
  }

  lemma {:induction false} SplitFirst(a: string, c: char, b: string)
    requires c !in a
    ensures Split(a + [c] + b, c) == [a] + Split(b, c)
  {
    IndexOfFirst(a, c, b);
    var s := a + [c] + b;
    assert s[..|a|] == a && s[|a| + 1..] == b;
  }

  lemma {:induction false} SplitWhole(a: string, c: char)
    requires c !in a
    ensures Split(a, c) == [a]
  {
    IndexOfNone(a, c);
  }

  predicate Contains(s: string, t: string) {
    exists k :: 0 <= k <= |s| && t <= s[k..]
  }
}
