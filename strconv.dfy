/** Decimal formatting (`fmt`'s `%d`) and parsing (`strconv.Atoi`) of integers,
    used where an id travels as a path segment between the two tiers. */
module Strconv {
  import opened Shared

  predicate IsDigit(c: char) {
    '0' <= c <= '9'
  }

  predicate AllDigits(s: string) {
    forall i | 0 <= i < |s| :: IsDigit(s[i])
  }

  function DigitChar(d: nat): (c: char)
    requires d < 10
    ensures IsDigit(c) && c as int - '0' as int == d
  {
    ('0' as int + d) as char
  }

  /** The decimal digits of `n`, most significant first, without leading zeros. */
  function NatToDigits(n: nat): (s: string)
    ensures s != [] && AllDigits(s)
    ensures |s| > 1 ==> s[0] != '0'
  {
    if n < 10 then [DigitChar(n)] else NatToDigits(n / 10) + [DigitChar(n % 10)]
  }

  /** `fmt.Sprintf("%d", n)`: an optional minus sign followed by the digits. */
  function Itoa(n: int): string {
    if n < 0 then "-" + NatToDigits(-n) else NatToDigits(n)
  }

  /** The value of a string of decimal digits (the empty string is 0). */
  function DigitsValue(s: string): nat
    requires AllDigits(s)
  {
    if s == [] then 0
    else DigitsValue(s[..|s| - 1]) * 10 + (s[|s| - 1] as int - '0' as int)
  }

  predicate HasSign(s: string) {
    |s| > 0 && (s[0] == '+' || s[0] == '-')
  }

  /** The digits after the optional sign. */
  function Magnitude(s: string): string {
    if HasSign(s) then s[1..] else s
  }

  /** The syntax `strconv.Atoi` accepts in base 10: an optional `+` or `-`
      sign, then at least one decimal digit, and nothing else. */
  predicate IsDecimal(s: string) {
    Magnitude(s) != [] && AllDigits(Magnitude(s))
  }

  /** The integer a decimal string denotes. */
  function SignedValue(s: string): int
    requires IsDecimal(s)
  {
    if s[0] == '-' then -(DigitsValue(Magnitude(s)) as int) else DigitsValue(Magnitude(s))
  }

  /** The digit loop of `strconv.ParseUint`: left to right, `n = n*10 + d`,
      stopping with a syntax error at the first non-digit. */
  function ScanDigits(acc: nat, s: string): Option<nat>
    decreases |s|
  {
    if s == [] then Some(acc)
    else if !IsDigit(s[0]) then None
    else ScanDigits(acc * 10 + (s[0] as int - '0' as int), s[1..])
  }

  /** `strconv.ParseInt(s, 10, 0)` without its range check: strip the sign,
      refuse an empty digit string, scan the digits, then negate for `-`. */
  function ParseInt(s: string): (r: Option<int>)
    ensures r.Some? <==> IsDecimal(s)
    ensures r.Some? ==> r.value == SignedValue(s)
  {
    if s == [] then None
    else
      var digits := if s[0] == '+' || s[0] == '-' then s[1..] else s;
      if digits == [] then None
      else
        ScanDigitsValue(digits);
        match ScanDigits(0, digits)
        case None => None
        case Some(n) => if s[0] == '-' then Some(-(n as int)) else Some(n)
  }

  /** `strconv.Atoi` on a 64-bit platform: a syntax error or a value outside
      the range of `int` is an error (`None`). */
  function Atoi(s: string): (r: Option<Int64>)
    ensures r.Some? <==> IsDecimal(s) && InInt64(SignedValue(s))
    ensures r.Some? ==> r.value == SignedValue(s)
  {
    match ParseInt(s)
    case Some(n) => if InInt64(n) then Some(n) else None
    case None => None
  }

  /** Appending one character to what the digit loop scans is one more step
      of the loop. */
  lemma {:induction false} ScanDigitsSnoc(acc: nat, s: string, c: char)
    ensures ScanDigits(acc, s + [c]) ==
      match ScanDigits(acc, s)
      case None => None
      case Some(n) => if IsDigit(c) then Some(n * 10 + (c as int - '0' as int)) else None
    decreases |s|
  {
    if s == [] {
      assert s + [c] == [c];
    } else {
      assert (s + [c])[0] == s[0];
      assert (s + [c])[1..] == s[1..] + [c];
      if IsDigit(s[0]) {
        ScanDigitsSnoc(acc * 10 + (s[0] as int - '0' as int), s[1..], c);
      }
    }
  }

  /** The left-to-right loop computes the right-recursive digit value, and it
      succeeds exactly on strings of digits. */
  lemma {:induction false} ScanDigitsValue(s: string)
    ensures ScanDigits(0, s).Some? <==> AllDigits(s)
    ensures AllDigits(s) ==> ScanDigits(0, s) == Some(DigitsValue(s))
  {
    if s != [] {
      var p, c := s[..|s| - 1], s[|s| - 1];
      assert s == p + [c];
      ScanDigitsValue(p);
      ScanDigitsSnoc(0, p, c);
      assert AllDigits(s) <==> AllDigits(p) && IsDigit(c) by {
        if AllDigits(p) && IsDigit(c) {
          forall i | 0 <= i < |s| ensures IsDigit(s[i]) {
            if i < |p| { assert s[i] == p[i]; }
          }
        }
      }
    }
  }

  lemma {:induction false} DigitsValueOfNatToDigits(n: nat)
    ensures DigitsValue(NatToDigits(n)) == n
  {
    if n >= 10 {
      var s := NatToDigits(n);
      var front := NatToDigits(n / 10);
      assert s[..|s| - 1] == front;
      DigitsValueOfNatToDigits(n / 10);
    }
  }

  /** Parsing what `%d` printed gives back the number, for every integer. */
  lemma ParseIntItoa(n: int)
    ensures ParseInt(Itoa(n)) == Some(n)
  {
    if n < 0 {
      var d := NatToDigits(-n);
      assert Itoa(n)[1..] == d;
      DigitsValueOfNatToDigits(-n);
    } else {
      DigitsValueOfNatToDigits(n);
    }
  }

  /** The id the gateway formats into a URL is the id the backing tier parses. */
  lemma AtoiItoa(n: Int64)
    ensures Atoi(Itoa(n)) == Some(n)
  {
    ParseIntItoa(n);
  }

  /** `%d` never prints two integers the same way. */
  lemma ItoaInjective(a: int, b: int)
    ensures Itoa(a) == Itoa(b) <==> a == b
  {
    ParseIntItoa(a);
    ParseIntItoa(b);
  }

  /** The printed form holds only digits and possibly a leading minus sign. */
  lemma ItoaCharacters(n: int)
    ensures Itoa(n) != []
    ensures forall i | 0 <= i < |Itoa(n)| :: IsDigit(Itoa(n)[i]) || (i == 0 && Itoa(n)[i] == '-')
  {
  }
}
