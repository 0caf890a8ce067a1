/** Stream cursors on the wire: an exclusive start position in decimal. */
module Cursors {
  import opened Wrappers

  const U64_MAX: nat := 0xFFFF_FFFF_FFFF_FFFF

  /** The Unicode white space that `trim` removes. */
  predicate IsSpace(c: char) {
    var n := c as int;
    9 <= n <= 13 || n == 32 || n == 0x85 || n == 0xA0 || n == 0x1680 || 0x2000 <= n <= 0x200A
    || n == 0x2028 || n == 0x2029 || n == 0x202F || n == 0x205F || n == 0x3000
  }

  function TrimStart(s: string): string {
    if s != [] && IsSpace(s[0]) then TrimStart(s[1..]) else s
  }

  function TrimEnd(s: string): string {
    if s != [] && IsSpace(s[|s| - 1]) then TrimEnd(s[..|s| - 1]) else s
  }

  function Trim(s: string): string { TrimEnd(TrimStart(s)) }

  predicate IsDigit(c: char) { '0' <= c <= '9' }

  function DigitChar(d: nat): (c: char)
    requires d < 10
    ensures IsDigit(c) && c as int - '0' as int == d
  {
    ('0' as int + d) as char
  }

  /** Decimal digits, most significant first. */
  function Decimal(n: nat): string {
    if n < 10 then [DigitChar(n)] else Decimal(n / 10) + [DigitChar(n % 10)]
  }

  /** Value of a non-empty digit string, `None` on any other character. */
  function Digits(s: string): Option<nat> {
    if s == [] || !IsDigit(s[|s| - 1]) then None
    else
      var d := s[|s| - 1] as int - '0' as int;
      if |s| == 1 then Some(d)
      else match Digits(s[..|s| - 1])
           case None => None
           case Some(n) => Some(10 * n + d)
  }

  /** Unsigned 64-bit parsing: an optional plus sign, then decimal digits within range. */
  function ParseU64(s: string): Option<nat> {
    var digits := if s != [] && s[0] == '+' then s[1..] else s;
    match Digits(digits)
    case None => None
    case Some(n) => if n <= U64_MAX then Some(n) else None
  }

  function Encode(after: nat): string { Decimal(after) }

  /** An absent or blank cursor starts the stream; anything else must be a number. */
  function Parse(cursor: Option<string>): Option<nat> {
    if cursor.None? || Trim(cursor.value) == [] then Some(0) else ParseU64(Trim(cursor.value))
  }

  lemma {:induction false} DecimalIsDigits(n: nat)
    ensures Decimal(n) != []
    ensures forall i :: 0 <= i < |Decimal(n)| ==> IsDigit(Decimal(n)[i])
    ensures Digits(Decimal(n)) == Some(n)
  {
    if n >= 10 {
      DecimalIsDigits(n / 10);
      assert Decimal(n)[..|Decimal(n)| - 1] == Decimal(n / 10);
    }
  }

  // ----- which strings are cursors -----

  function Zeros(k: nat): string { if k == 0 then [] else ['0'] + Zeros(k - 1) }

  lemma {:induction false} ZerosSnoc(k: nat)
    ensures |Zeros(k)| == k && Zeros(k + 1) == Zeros(k) + ['0']
  {
    if k > 0 { ZerosSnoc(k - 1); }
  }

  lemma DigitsSnoc(front: string, n: nat, d: nat)
    requires d < 10 && Digits(front) == Some(n)
    ensures Digits(front + [DigitChar(d)]) == Some(10 * n + d)
  {
    var s := front + [DigitChar(d)];
    assert s[..|s| - 1] == front;
  }

  lemma {:induction false} PaddedDigit(k: nat, d: nat)
    requires d < 10
    ensures Digits(Zeros(k) + [DigitChar(d)]) == Some(d)
  {
    if k == 0 {
      assert Zeros(k) + [DigitChar(d)] == [DigitChar(d)];
    } else {
      PaddedDigit(k - 1, 0);
      ZerosSnoc(k - 1);
      DigitsSnoc(Zeros(k), 0, d);
    }
  }

  lemma {:induction false} PaddedDigits(k: nat, n: nat)
    ensures Digits(Zeros(k) + Decimal(n)) == Some(n)
  {
    if n < 10 {
      PaddedDigit(k, n);
    } else {
      var front, d := Zeros(k) + Decimal(n / 10), n % 10;
      PaddedDigits(k, n / 10);
      DigitsSnoc(front, n / 10, d);
      assert Zeros(k) + Decimal(n) == front + [DigitChar(d)];
    }
  }

  lemma DecimalSnoc(n: nat, d: nat)
    requires n > 0 && d < 10
    ensures Decimal(10 * n + d) == Decimal(n) + [DigitChar(d)]
  {
    assert (10 * n + d) / 10 == n && (10 * n + d) % 10 == d;
  }

  lemma DigitsSplit(s: string) returns (front: string, d: nat)
    requires Digits(s).Some?
    ensures d < 10 && |front| < |s| && s == front + [DigitChar(d)]
    ensures front == [] ==> Digits(s) == Some(d)
    ensures front != [] ==> Digits(front).Some? && Digits(s) == Some(10 * Digits(front).value + d)
  {
    front, d := s[..|s| - 1], s[|s| - 1] as int - '0' as int;
    assert DigitChar(d) == s[|s| - 1];
  }

  lemma {:induction false} DigitsArePadded(s: string) returns (k: nat)
    requires Digits(s).Some?
    ensures s == Zeros(k) + Decimal(Digits(s).value)
    decreases |s|
  {
    var front, d := DigitsSplit(s);
    if front == [] {
      k := 0;
    } else {
      k := DigitsArePadded(front);
      var m := Digits(front).value;
      if m == 0 {
        ZerosSnoc(k);
        k := k + 1;
      } else {
        DecimalSnoc(m, d);
      }
    }
  }

  /** The decimal numeral of `n`, with any number of leading zeros and an optional plus sign. */
  ghost predicate IsNumeral(s: string, n: nat) {
    exists k :: s == Zeros(k) + Decimal(n) || s == ['+'] + Zeros(k) + Decimal(n)
  }

  lemma NumeralStarts(k: nat, n: nat)
    ensures Zeros(k) + Decimal(n) != [] && (Zeros(k) + Decimal(n))[0] != '+'
  {
    DecimalIsDigits(n);
  }

  /** A cursor that is not blank stands for `n` exactly when, trimmed, it is a numeral of `n` below 2^64. */
  lemma ParsesExactly(cursor: string, n: nat)
    requires Trim(cursor) != []
    ensures Parse(Some(cursor)) == Some(n) <==> n < 0x1_0000_0000_0000_0000 && IsNumeral(Trim(cursor), n)
  {
    var s := Trim(cursor);
    if Parse(Some(cursor)) == Some(n) {
      var k := DigitsArePadded(if s[0] == '+' then s[1..] else s);
      assert s[0] == '+' ==> s == ['+'] + Zeros(k) + Decimal(n);
    }
    if IsNumeral(s, n) {
      var k :| s == Zeros(k) + Decimal(n) || s == ['+'] + Zeros(k) + Decimal(n);
      NumeralStarts(k, n);
      PaddedDigits(k, n);
      assert s[0] == '+' ==> s[1..] == Zeros(k) + Decimal(n);
    }
  }

  lemma {:induction false} StartIsTrimmed(s: string) returns (pre: string)
    ensures s == pre + TrimStart(s) && forall c :: c in pre ==> IsSpace(c)
    ensures TrimStart(s) != [] ==> !IsSpace(TrimStart(s)[0])
  {
    if s != [] && IsSpace(s[0]) {
      pre := StartIsTrimmed(s[1..]);
      pre := [s[0]] + pre;
    } else {
      pre := [];
    }
  }

  lemma {:induction false} EndIsTrimmed(s: string) returns (post: string)
    ensures s == TrimEnd(s) + post && forall c :: c in post ==> IsSpace(c)
    ensures TrimEnd(s) != [] ==> !IsSpace(TrimEnd(s)[|TrimEnd(s)| - 1])
  {
    if s != [] && IsSpace(s[|s| - 1]) {
      post := EndIsTrimmed(s[..|s| - 1]);
      post := post + [s[|s| - 1]];
    } else {
      post := [];
    }
  }

  /** Trimming removes white space at both ends and stops at the first other character. */
  lemma TrimmedExactly(s: string) returns (pre: string, post: string)
    ensures s == pre + Trim(s) + post
    ensures forall c :: c in pre + post ==> IsSpace(c)
    ensures Trim(s) != [] ==> !IsSpace(Trim(s)[0]) && !IsSpace(Trim(s)[|Trim(s)| - 1])
  {
    pre := StartIsTrimmed(s);
    post := EndIsTrimmed(TrimStart(s));
    assert Trim(s) != [] ==> Trim(s)[0] == TrimStart(s)[0];
  }

  /** Every issued cursor parses back to the position it was issued for. */
  lemma CursorRoundTrip(after: nat)
    requires after <= U64_MAX
    ensures Parse(Some(Encode(after))) == Some(after)
  {
    DecimalIsDigits(after);
    var s := Encode(after);
    assert !IsSpace(s[0]) && !IsSpace(s[|s| - 1]);
    assert s[0] != '+';
  }

  /** Distinct positions have distinct cursors, and no cursor is blank. */
  lemma CursorsAreDistinct(m: nat, n: nat)
    ensures Encode(m) == Encode(n) ==> m == n
    ensures Encode(m) != ""
  {
    DecimalIsDigits(m);
    DecimalIsDigits(n);
  }
}
