/**
 * The JavaScript string operations the core relies on, stated over `seq<char>`:
 * `trim`, `split(',')[0]`, `toLowerCase`, `includes`, `startsWith`,
 * `Number.prototype.toString` on integers and the `isNaN(Number(s))` test.
 */
module Text {

  /** The WhiteSpace and LineTerminator code points of ECMAScript, which `trim` removes. */
  predicate IsSpace(c: char) {
    || c == '\t' || c == '\n' || c == '\U{000B}' || c == '\U{000C}' || c == '\r'
    || c == ' ' || c == '\U{00A0}' || c == '\U{1680}' || ('\U{2000}' <= c <= '\U{200A}')
    || c == '\U{2028}' || c == '\U{2029}' || c == '\U{202F}' || c == '\U{205F}'
    || c == '\U{3000}' || c == '\U{FEFF}'
  }

  /** `q` occurs in `s` starting at position `k`. */
  predicate OccursAt(s: string, q: string, k: int) {
    0 <= k <= |s| - |q| && s[k..k + |q|] == q
  }

  /** Drops leading white space. */
  function TrimStart(s: string): (r: string)
    ensures |r| <= |s|
  {
    if s != [] && IsSpace(s[0]) then TrimStart(s[1..]) else s
  }

  /** Drops trailing white space. */
  function TrimEnd(s: string): (r: string)
    ensures |r| <= |s|
  {
    if s != [] && IsSpace(s[|s| - 1]) then TrimEnd(s[..|s| - 1]) else s
  }

  /** `s.trim()`. */
  function Trim(s: string): (r: string)
    ensures |r| <= |s|
  {
    TrimEnd(TrimStart(s))
  }

  /** `trimStart` keeps a suffix, drops only white space, and stops at the first other character. */
  lemma {:induction false} TrimStartSpec(s: string)
    ensures TrimStart(s) == s[|s| - |TrimStart(s)|..]
    ensures TrimStart(s) == [] || !IsSpace(TrimStart(s)[0])
    ensures forall i :: 0 <= i < |s| - |TrimStart(s)| ==> IsSpace(s[i])
  {
    if s != [] && IsSpace(s[0]) {
      TrimStartSpec(s[1..]);
    }
  }

  /** `trimEnd` keeps a prefix, drops only white space, and stops at the last other character. */
  lemma {:induction false} TrimEndSpec(s: string)
    ensures TrimEnd(s) == s[..|TrimEnd(s)|]
    ensures TrimEnd(s) == [] || !IsSpace(TrimEnd(s)[|TrimEnd(s)| - 1])
    ensures forall i :: |TrimEnd(s)| <= i < |s| ==> IsSpace(s[i])
  {
    if s != [] && IsSpace(s[|s| - 1]) {
      TrimEndSpec(s[..|s| - 1]);
    }
  }

  /**
   * `trim` gives an infix of `s` that neither starts nor ends with white space,
   * and is empty exactly when `s` is all white space.
   */
  lemma TrimSpec(s: string)
    ensures exists k :: OccursAt(s, Trim(s), k)
    ensures Trim(s) == [] || (!IsSpace(Trim(s)[0]) && !IsSpace(Trim(s)[|Trim(s)| - 1]))
    ensures Trim(s) == [] <==> forall i :: 0 <= i < |s| ==> IsSpace(s[i])
  {
    var t := TrimStart(s);
    TrimStartSpec(s);
    TrimEndSpec(t);
    var k := |s| - |t|;
    assert OccursAt(s, Trim(s), k);
    if Trim(s) != [] {
      assert !IsSpace(s[k]);
    }
  }

  /** A string without white space at either end is its own trim. */
  lemma TrimKeeps(s: string)
    requires s == [] || (!IsSpace(s[0]) && !IsSpace(s[|s| - 1]))
    ensures Trim(s) == s
  {
  }

  /** Trimming twice is trimming once. */
  lemma TrimIdempotent(s: string)
    ensures Trim(Trim(s)) == Trim(s)
  {
    TrimSpec(s);
    TrimKeeps(Trim(s));
  }

  /** `s.split(',')[0]`: the text before the first comma, or all of `s` when it has none. */
  function BeforeComma(s: string): (r: string)
    ensures |r| <= |s|
  {
    if s == [] || s[0] == ',' then [] else [s[0]] + BeforeComma(s[1..])
  }

  /** The text before the first comma is a comma-free prefix that ends at a comma or at the end. */
  lemma {:induction false} BeforeCommaSpec(s: string)
    ensures BeforeComma(s) == s[..|BeforeComma(s)|] && ',' !in BeforeComma(s)
    ensures |BeforeComma(s)| < |s| ==> s[|BeforeComma(s)|] == ','
  {
    if s != [] && s[0] != ',' {
      BeforeCommaSpec(s[1..]);
    }
  }

  /** The text before the first comma is determined by where that comma stands. */
  lemma {:induction false} BeforeCommaAt(s: string, k: nat)
    requires k <= |s| && ',' !in s[..k] && (k == |s| || s[k] == ',')
    ensures BeforeComma(s) == s[..k]
  {
    if k > 0 {
      assert s[0] == s[..k][0];
      assert s[1..][..k - 1] == s[1..k];
      BeforeCommaAt(s[1..], k - 1);
    }
  }

  /** `toLowerCase`, on the ASCII letters only. */
  function ToLower(s: string): (r: string)
    ensures |r| == |s|
  {
    if s == [] then []
    else [if 'A' <= s[0] <= 'Z' then (s[0] as int + 32) as char else s[0]] + ToLower(s[1..])
  }

  /** `s.includes(q)`: `q` occurs in `s` at some position. */
  predicate Contains(s: string, q: string) {
    q <= s || (s != [] && Contains(s[1..], q))
  }

  /** `includes` holds exactly when `q` occurs in `s` at some position. */
  lemma {:induction false} ContainsIffOccurs(s: string, q: string)
    ensures Contains(s, q) <==> exists k :: OccursAt(s, q, k)
  {
    if q <= s {
      assert OccursAt(s, q, 0);
    } else if s == [] {
      assert forall k :: !OccursAt(s, q, k);
    } else {
      ContainsIffOccurs(s[1..], q);
      if Contains(s[1..], q) {
        var k :| OccursAt(s[1..], q, k);
        assert s[k + 1..k + 1 + |q|] == s[1..][k..k + |q|];
        assert OccursAt(s, q, k + 1);
      }
      if exists k :: OccursAt(s, q, k) {
        var k :| OccursAt(s, q, k);
        assert k != 0;
        assert s[1..][k - 1..k - 1 + |q|] == s[k..k + |q|];
        assert OccursAt(s[1..], q, k - 1);
      }
    }
  }

  /** The ASCII digit whose value is `d`. */
  function Digit(d: nat): (c: char)
    requires d < 10
    ensures '0' <= c <= '9'
  {
    ('0' as int + d) as char
  }

  predicate AllDigits(s: string) {
    forall i :: 0 <= i < |s| ==> '0' <= s[i] <= '9'
  }

  /** The value of a string of decimal digits. */
  function DecimalValue(s: string): nat
    requires AllDigits(s)
  {
    if s == [] then 0 else 10 * DecimalValue(s[..|s| - 1]) + (s[|s| - 1] as int - '0' as int)
  }

  /** `n.toString()` for a non-negative integer. */
  function NatToString(n: nat): (r: string)
    ensures r != [] && AllDigits(r)
    ensures n < 10 <==> |r| == 1
  {
    if n < 10 then [Digit(n)] else NatToString(n / 10) + [Digit(n % 10)]
  }

  /** Reading back the decimal rendering of `n` gives `n`. */
  lemma {:induction false} NatToStringRoundTrip(n: nat)
    ensures DecimalValue(NatToString(n)) == n
  {
    if n >= 10 {
      var s := NatToString(n);
      assert s[..|s| - 1] == NatToString(n / 10);
      NatToStringRoundTrip(n / 10);
    }
  }

  /** `n.toString()` for an integer: a minus sign, then the digits of `|n|`. */
  function IntToString(n: int): (r: string)
    ensures r != [] && (r[0] == '-' <==> n < 0)
  {
    if n < 0 then "-" + NatToString(-n) else NatToString(n)
  }

  /** A non-empty string of decimal digits. */
  predicate Digits(s: string) {
    s != [] && AllDigits(s)
  }

  /** First position of a character satisfying `p`, or `|s|` when there is none. */
  function IndexWhere(s: string, p: char -> bool): (k: nat)
    ensures k <= |s| && (k < |s| ==> p(s[k]))
    ensures forall i :: 0 <= i < k ==> !p(s[i])
  {
    if s == [] then 0 else if p(s[0]) then 0 else 1 + IndexWhere(s[1..], p)
  }

  /** `digits`, `digits.`, `digits.digits` or `.digits`. */
  predicate Mantissa(m: string) {
    var d := IndexWhere(m, c => c == '.');
    if d == |m| then Digits(m)
    else AllDigits(m[..d]) && AllDigits(m[d + 1..]) && (d > 0 || d + 1 < |m|)
  }

  /** A StrUnsignedDecimalLiteral: `Infinity`, or a mantissa with an optional signed exponent. */
  predicate UnsignedDecimal(u: string) {
    u == "Infinity" ||
    var k := IndexWhere(u, c => c == 'e' || c == 'E');
    Mantissa(u[..k]) &&
    (k == |u| || Digits(u[k + 1..]) ||
     (k + 1 < |u| && (u[k + 1] == '+' || u[k + 1] == '-') && Digits(u[k + 2..])))
  }

  predicate HexDigit(c: char) {
    ('0' <= c <= '9') || ('a' <= c <= 'f') || ('A' <= c <= 'F')
  }

  /** A NonDecimalIntegerLiteral: `0x`, `0o` or `0b` followed by digits of that base. */
  predicate NonDecimalInteger(t: string) {
    |t| > 2 && t[0] == '0' &&
    (|| ((t[1] == 'x' || t[1] == 'X') && forall i :: 2 <= i < |t| ==> HexDigit(t[i]))
     || ((t[1] == 'o' || t[1] == 'O') && forall i :: 2 <= i < |t| ==> '0' <= t[i] <= '7')
     || ((t[1] == 'b' || t[1] == 'B') && forall i :: 2 <= i < |t| ==> t[i] == '0' || t[i] == '1'))
  }

  /**
   * `!isNaN(Number(s))`: after trimming, `s` is empty or a StringNumericLiteral
   * (a signed or unsigned decimal literal, `Infinity`, or a non-decimal integer).
   */
  predicate IsNumericText(s: string) {
    var t := Trim(s);
    || t == []
    || UnsignedDecimal(t)
    || ((t[0] == '+' || t[0] == '-') && UnsignedDecimal(t[1..]))
    || NonDecimalInteger(t)
  }

  /** The empty string and every digit string pass the numeric check. */
  lemma DigitsAreNumeric(s: string)
    requires AllDigits(s)
    ensures IsNumericText(s)
  {
    if s != [] {
      TrimKeeps(s);
      var k := IndexWhere(s, c => c == 'e' || c == 'E');
      assert k == |s|;
      assert IndexWhere(s, c => c == '.') == |s|;
    }
  }

  /** A single character passes the numeric check exactly when it is a digit or white space. */
  lemma SingleCharNumeric(c: char)
    ensures IsNumericText([c]) <==> ('0' <= c <= '9' || IsSpace(c))
  {
    if IsSpace(c) {
      assert Trim([c]) == [];
    } else {
      TrimKeeps([c]);
      if '0' <= c <= '9' {
        DigitsAreNumeric([c]);
      } else {
        var s := [c];
        assert s[1..] == [];
        assert !UnsignedDecimal([]);
        var k := IndexWhere(s, c => c == 'e' || c == 'E');
        if k == 0 {
          assert s[..k] == [];
          assert IndexWhere([], c => c == '.') == 0;
        } else {
          assert s[..k] == s;
          assert k == 1;
        }
      }
    }
  }
}
