/**
 The text primitives the program takes from its library: decimal printing (to_string),
 decimal reading (atoi), and token extraction from a stream (operator >>).
 */
module Text {

  /** The white space that stream extraction skips: blank, and tab through carriage return. */
  predicate IsSpace(c: char) {
    c == ' ' || '\t' <= c <= '\r'
  }

  predicate IsDigit(c: char) {
    '0' <= c <= '9'
  }

  /** The character class \w of the program's patterns. */
  predicate IsWordChar(c: char) {
    IsDigit(c) || 'a' <= c <= 'z' || 'A' <= c <= 'Z' || c == '_'
  }

  predicate AllDigits(s: string) {
    forall i | 0 <= i < |s| :: IsDigit(s[i])
  }

  predicate AllWord(s: string) {
    forall i | 0 <= i < |s| :: IsWordChar(s[i])
  }

  predicate NoSpace(s: string) {
    forall i | 0 <= i < |s| :: !IsSpace(s[i])
  }

  /** A token: what one extraction can deliver. */
  predicate IsToken(s: string) {
    s != "" && NoSpace(s)
  }

  // ---------- Decimal numbers ----------

  function DigitChar(d: nat): char
    requires d < 10
  {
    '0' + d as char
  }

  function DigitValue(c: char): nat
    requires IsDigit(c)
  {
    (c - '0') as nat
  }

  function Digits(n: nat): (s: string)
    ensures s != "" && AllDigits(s)
  {
    if n < 10 then [DigitChar(n)] else Digits(n / 10) + [DigitChar(n % 10)]
  }

  function ToString(n: int): string {
    if n < 0 then "-" + Digits(-n) else Digits(n)
  }

  /** The value of the leading digits of `s`, continuing from `acc`. */
  function LeadingDigits(s: string, acc: nat): nat {
    if s == "" || !IsDigit(s[0]) then acc
    else LeadingDigits(s[1..], 10 * acc + DigitValue(s[0]))
  }

  function SkipSpaces(s: string): string {
    if s != "" && IsSpace(s[0]) then SkipSpaces(s[1..]) else s
  }

  /** Leading white space, an optional sign, then digits up to the first other character. */
  function Atoi(s: string): int {
    var t := SkipSpaces(s);
    if t == "" then 0
    else if t[0] == '-' then 0 - LeadingDigits(t[1..], 0)
    else if t[0] == '+' then LeadingDigits(t[1..], 0)
    else LeadingDigits(t, 0)
  }

  lemma {:induction false} LeadingDigitsConcat(a: string, b: string, acc: nat)
    requires AllDigits(a)
    ensures LeadingDigits(a + b, acc) == LeadingDigits(b, LeadingDigits(a, acc))
  {
    if a == "" {
      assert a + b == b;
    } else {
      assert (a + b)[1..] == a[1..] + b;
      LeadingDigitsConcat(a[1..], b, 10 * acc + DigitValue(a[0]));
    }
  }

  lemma {:induction false} LeadingDigitsOfDigits(n: nat)
    ensures LeadingDigits(Digits(n), 0) == n
  {
    if n >= 10 {
      LeadingDigitsOfDigits(n / 10);
      LeadingDigitsConcat(Digits(n / 10), [DigitChar(n % 10)], 0);
      var last := [DigitChar(n % 10)];
      assert LeadingDigits(last, n / 10) == LeadingDigits(last[1..], 10 * (n / 10) + n % 10);
    }
  }

  /** Reading back a printed number gives the number, whatever its sign. */
  lemma AtoiToString(n: int)
    ensures Atoi(ToString(n)) == n
  {
    LeadingDigitsOfDigits(if n < 0 then -n else n);
    if n < 0 {
      assert ToString(n)[1..] == Digits(-n);
    }
  }

  lemma AtoiOfDigits(s: string)
    requires AllDigits(s)
    ensures Atoi(s) == LeadingDigits(s, 0)
  {
  }

  lemma OneDigit(c: char, acc: nat)
    requires IsDigit(c)
    ensures LeadingDigits([c], acc) == 10 * acc + DigitValue(c)
  {
    assert [c][1..] == "";
  }

  /** Digits are read as a decimal number, the last one as the units, leading zeros and all. */
  lemma AtoiIsDecimal(s: string, c: char)
    requires '0' <= c <= '9' && forall i | 0 <= i < |s| :: '0' <= s[i] <= '9'
    ensures Atoi("") == 0 && Atoi(s + [c]) == 10 * Atoi(s) + (c as int - '0' as int)
  {
    AtoiOfDigits(s);
    AtoiOfDigits(s + [c]);
    LeadingDigitsConcat(s, [c], 0);
    OneDigit(c, LeadingDigits(s, 0));
  }

  lemma {:induction false} SkipsAll(gap: string, s: string)
    requires forall i | 0 <= i < |gap| :: IsSpace(gap[i])
    requires s == "" || !IsSpace(s[0])
    ensures SkipSpaces(gap + s) == s
  {
    if gap == "" {
      assert gap + s == s;
    } else {
      assert (gap + s)[1..] == gap[1..] + s;
      SkipsAll(gap[1..], s);
    }
  }

  /**
   White space, a sign or none, digits, and anything: the digits are the number, the sign its sign, and the rest is
   not looked at; every text is of this form, and one without digits there is zero.
   */
  lemma AtoiOfText(gap: string, sign: string, digits: string, rest: string)
    requires forall i | 0 <= i < |gap| :: gap[i] == ' ' || '\t' <= gap[i] <= '\r'
    requires sign == "" || sign == "-" || sign == "+"
    requires forall i | 0 <= i < |digits| :: '0' <= digits[i] <= '9'
    requires rest == "" || !('0' <= rest[0] <= '9')
    requires sign == "" && digits == "" && rest != "" ==>
               rest[0] != '-' && rest[0] != '+' && rest[0] != ' ' && !('\t' <= rest[0] <= '\r')
    ensures Atoi(gap + (sign + (digits + rest))) == if sign == "-" then 0 - Atoi(digits) else Atoi(digits)
  {
    var t := sign + (digits + rest);
    SkipsAll(gap, t);
    LeadingDigitsConcat(digits, rest, 0);
    assert sign != "" ==> t[0] == sign[0] && t[1..] == digits + rest;
    assert sign == "" ==> t == digits + rest;
  }

  lemma ToStringIsToken(n: int)
    ensures IsToken(ToString(n))
  {
  }

  /** A number of at most `k` digits prints in at most `k` characters. */
  lemma {:induction false} DigitsLength(n: nat, k: nat)
    requires k >= 1 && n < Power10(k)
    ensures |Digits(n)| <= k
  {
    if n >= 10 {
      assert n / 10 < Power10(k - 1) by {
        assert n < 10 * Power10(k - 1);
      }
      DigitsLength(n / 10, k - 1);
    }
  }

  function Power10(k: nat): nat {
    if k == 0 then 1 else 10 * Power10(k - 1)
  }

  // ---------- Stream extraction ----------

  function TokenLength(s: string): (k: nat)
    ensures k <= |s|
    ensures NoSpace(s[..k])
    ensures k < |s| ==> IsSpace(s[k])
  {
    if s == "" || IsSpace(s[0]) then 0 else 1 + TokenLength(s[1..])
  }

  /** The next token of a stream (empty at its end) and what remains after it. */
  function NextToken(s: string): (r: (string, string))
    ensures |r.1| <= |s| - |r.0|
  {
    SkipSpacesShrinks(s);
    var t := SkipSpaces(s);
    var k := TokenLength(t);
    (t[..k], t[k..])
  }

  lemma SkipSpacesShrinks(s: string)
    ensures |SkipSpaces(s)| <= |s|
  {
  }

  lemma {:induction false} TokenLengthExact(tok: string, rest: string)
    requires NoSpace(tok)
    requires rest == "" || IsSpace(rest[0])
    ensures TokenLength(tok + rest) == |tok|
  {
    if tok == "" {
      assert tok + rest == rest;
    } else {
      assert (tok + rest)[1..] == tok[1..] + rest;
      TokenLengthExact(tok[1..], rest);
    }
  }

  /** Extraction delivers exactly the token that was written. */
  lemma NextTokenExact(tok: string, rest: string)
    requires IsToken(tok)
    requires rest == "" || IsSpace(rest[0])
    ensures NextToken(tok + rest) == (tok, rest)
  {
    TokenLengthExact(tok, rest);
    var s := tok + rest;
    assert s[..|tok|] == tok && s[|tok|..] == rest;
  }

  /** White space before a token is skipped. */
  lemma NextTokenSkips(c: char, s: string)
    requires IsSpace(c)
    ensures NextToken([c] + s) == NextToken(s)
  {
    assert ([c] + s)[1..] == s;
    assert SkipSpaces([c] + s) == SkipSpaces(s);
  }

  /** White space, a token, and white space or the end after it: the token is delivered, the rest is left. */
  lemma TokenIsRead(gap: string, tok: string, rest: string)
    requires forall i | 0 <= i < |gap| :: gap[i] == ' ' || '\t' <= gap[i] <= '\r'
    requires forall i | 0 <= i < |tok| :: tok[i] != ' ' && !('\t' <= tok[i] <= '\r')
    requires tok == "" ==> rest == ""
    requires rest == "" || rest[0] == ' ' || '\t' <= rest[0] <= '\r'
    ensures NextToken(gap + (tok + rest)) == (tok, rest)
  {
    SkipsAll(gap, tok + rest);
    TokenLengthExact(tok, rest);
    var s := tok + rest;
    assert s[..|tok|] == tok && s[|tok|..] == rest;
  }

  lemma Regroup3(a: string, b: string, c: string)
    ensures a + b + c == a + (b + c)
  {
  }

  lemma Regroup4(a: string, b: string, c: string, d: string)
    ensures a + b + c + d == a + (b + (c + d))
  {
  }

  lemma Regroup5(a: string, b: string, c: string, d: string, e: string)
    ensures a + b + c + d + e == a + (b + (c + (d + e)))
  {
  }
}
