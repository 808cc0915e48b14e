/** Bytes in hexadecimal as the program prints them, without leading zeros, and when such a print is unambiguous. */
module Hexadecimal {
  import opened Text

  newtype byte = x: int | 0 <= x < 256

  function HexDigit(d: nat): char
    requires d < 16
  {
    if d < 10 then '0' + d as char else 'a' + (d - 10) as char
  }

  /** A byte without leading zero: one digit or two. */
  function HexByte(b: byte): (s: string)
    ensures 1 <= |s| <= 2 && AllWord(s)
  {
    if b < 16 then [HexDigit(b as nat)] else [HexDigit(b as nat / 16), HexDigit(b as nat % 16)]
  }

  /** The digits are those of base sixteen, the higher first; a byte below sixteen has one. */
  lemma HexByteText(b: byte)
    ensures HexByte(b) ==
            if b < 16 then ["0123456789abcdef"[b as int]]
            else ["0123456789abcdef"[b as int / 16], "0123456789abcdef"[b as int % 16]]
  {
  }

  function Hex(bs: seq<byte>): string {
    if bs == [] then "" else Hex(bs[..|bs| - 1]) + HexByte(bs[|bs| - 1])
  }

  lemma {:induction false} HexShape(bs: seq<byte>)
    ensures AllWord(Hex(bs)) && |bs| <= |Hex(bs)| <= 2 * |bs|
  {
    if bs != [] {
      HexShape(bs[..|bs| - 1]);
    }
  }

  method RawToHex(bs: seq<byte>) returns (s: string)
    ensures s == Hex(bs)
  {
    s := "";
    for i := 0 to |bs|
      invariant s == Hex(bs[..i])
    {
      assert bs[..i + 1][..i] == bs[..i];
      s := s + HexByte(bs[i]);
    }
    assert bs[..|bs|] == bs;
  }

  lemma HexLast(front: seq<byte>, last: byte)
    ensures Hex(front + [last]) == Hex(front) + HexByte(last)
  {
    assert (front + [last])[..|front|] == front;
  }

  /** What is printed of several bytes is what is printed of each, in their order. */
  lemma {:induction false} HexJoins(a: seq<byte>, b: seq<byte>)
    ensures Hex([]) == "" && Hex(a + b) == Hex(a) + Hex(b)
  {
    if b == [] {
      assert a + b == a;
      assert Hex(a) + "" == Hex(a);
    } else {
      var front, last := b[..|b| - 1], b[|b| - 1];
      HexJoins(a, front);
      HexLast(a + front, last);
      HexLast(front, last);
      assert front + [last] == b && a + b == (a + front) + [last];
      Regroup3(Hex(a), Hex(front), HexByte(last));
    }
  }

  lemma HexOne(a: byte)
    ensures Hex([a]) == HexByte(a)
  {
    assert [a][..0] == [];
    assert Hex([]) + HexByte(a) == HexByte(a);
  }

  lemma HexTwo(a: byte, b: byte)
    ensures Hex([a, b]) == HexByte(a) + HexByte(b)
  {
    assert [a, b][..1] == [a] && [a][..0] == [];
    assert Hex([a]) == Hex([]) + HexByte(a) == HexByte(a);
  }

  /** Without leading zeros different bytes can print alike. */
  lemma HexIsNotInjective()
    ensures Hex([0x01, 0x11]) == Hex([0x11, 0x01])
  {
    HexTwo(0x01, 0x11);
    HexTwo(0x11, 0x01);
    assert HexByte(0x11) == HexByte(0x01) + HexByte(0x01);
  }

  // ---------- When the digits are unambiguous ----------

  /** No other bytes, as many, print like these. */
  ghost predicate Unambiguous(a: seq<byte>) {
    forall b | |b| == |a| && Hex(b) == Hex(a) :: b == a
  }

  predicate IsShort(b: byte) {
    b < 16
  }

  /** A one-digit byte that cannot share its digit: the digit before it, if any, is 0, and it is 0 or the last. */
  predicate Alone(a: seq<byte>, i: nat)
    requires i < |a|
  {
    (i == 0 || a[i - 1] % 16 == 0) && (a[i] == 0 || i == |a| - 1)
  }

  /** All bytes have one digit, or those that have one stand alone. */
  predicate Rigid(a: seq<byte>) {
    || (forall i | 0 <= i < |a| :: IsShort(a[i]))
    || (forall i | 0 <= i < |a| && IsShort(a[i]) :: Alone(a, i))
  }

  /** Every one-digit byte is a 0 after a digit 0 or at the beginning. */
  predicate Tight(a: seq<byte>) {
    forall i | 0 <= i < |a| && IsShort(a[i]) :: a[i] == 0 && (i == 0 || a[i - 1] % 16 == 0)
  }

  /** The digits of all bytes but the last, given that byte is `x`, and its first digit if it has two. */
  function Stem(front: seq<byte>, x: byte): string {
    if IsShort(x) then Hex(front) else Hex(front) + [HexDigit((x / 16) as nat)]
  }

  lemma LastDigit(front: seq<byte>, x: byte)
    ensures Hex(front + [x]) == Stem(front, x) + [HexDigit((x % 16) as nat)]
  {
    assert (front + [x])[..|front|] == front;
    assert Hex(front + [x]) == Hex(front) + HexByte(x);
    assert !IsShort(x) ==> HexByte(x) == [HexDigit((x / 16) as nat)] + [HexDigit((x % 16) as nat)];
  }

  lemma SameEnds(s: string, c: char, t: string, d: char)
    requires s + [c] == t + [d]
    ensures s == t && c == d
  {
    assert (s + [c])[|s|] == c && (t + [d])[|t|] == d;
    assert (s + [c])[..|s|] == s && (t + [d])[..|t|] == t;
  }

  lemma HexDigitInjective(x: nat, y: nat)
    requires x < 16 && y < 16 && HexDigit(x) == HexDigit(y)
    ensures x == y
  {
  }

  lemma FrontAndLast(a: seq<byte>)
    requires a != []
    ensures a[..|a| - 1] + [a[|a| - 1]] == a
  {
  }

  /** Equal prints end in the same digit, and are equal before it. */
  lemma SamePrint(af: seq<byte>, x: byte, bf: seq<byte>, y: byte)
    requires Hex(af + [x]) == Hex(bf + [y])
    ensures x % 16 == y % 16 && Stem(af, x) == Stem(bf, y)
  {
    LastDigit(af, x);
    LastDigit(bf, y);
    SameEnds(Stem(af, x), HexDigit((x % 16) as nat), Stem(bf, y), HexDigit((y % 16) as nat));
    HexDigitInjective((x % 16) as nat, (y % 16) as nat);
  }

  predicate SinglesAlone(a: seq<byte>) {
    forall i | 0 <= i < |a| && IsShort(a[i]) :: Alone(a, i)
  }

  lemma FrontIsTight(a: seq<byte>)
    requires a != [] && SinglesAlone(a)
    ensures Tight(a[..|a| - 1]) && SinglesAlone(a[..|a| - 1])
  {
    var front := a[..|a| - 1];
    forall i | 0 <= i < |front| && IsShort(front[i])
      ensures front[i] == 0 && (i == 0 || front[i - 1] % 16 == 0)
    {
      assert Alone(a, i);
    }
  }

  lemma TightIsAlone(a: seq<byte>)
    requires Tight(a)
    ensures SinglesAlone(a) && (a != [] ==> Tight(a[..|a| - 1]))
  {
  }

  /** A front that ends in a two-digit byte, one digit short of `b`. */
  lemma {:induction false} OneDigitMore(a: seq<byte>, b: seq<byte>, d: char)
    requires Tight(a) && Hex(b) == Hex(a) + [d]
    ensures |b| >= |a| + 1
    decreases |a|, 1
  {
    TightIsAlone(a);
    if a != [] && b != [] {
      var bf, y := b[..|b| - 1], b[|b| - 1];
      FrontAndLast(b);
      LastDigit(bf, y);
      SameEnds(Stem(bf, y), HexDigit((y % 16) as nat), Hex(a), d);
      if IsShort(y) {
        FewestBytes(a, bf);
      } else {
        var af, x := a[..|a| - 1], a[|a| - 1];
        FrontAndLast(a);
        StemOfTight(af, x, bf, y);
        OneDigitMore(af, bf, HexDigit((x / 16) as nat));
      }
    }
  }

  /** Bytes that end in the first digit of a two-digit byte end in a two-digit byte, if they are tight. */
  lemma StemOfTight(af: seq<byte>, x: byte, bf: seq<byte>, y: byte)
    requires Tight(af + [x]) && !IsShort(y) && Stem(bf, y) == Hex(af + [x])
    ensures !IsShort(x) && Hex(bf) == Hex(af) + [HexDigit((x / 16) as nat)]
  {
    LastDigit(af, x);
    SameEnds(Hex(bf), HexDigit((y / 16) as nat), Stem(af, x), HexDigit((x % 16) as nat));
    HexDigitInjective((y / 16) as nat, (x % 16) as nat);
    assert (af + [x])[|af|] == x;
  }

  /** Where one-digit bytes stand alone no equal print has fewer bytes, and no other has as few. */
  lemma {:induction false} FewestBytes(a: seq<byte>, b: seq<byte>)
    requires SinglesAlone(a) && Hex(b) == Hex(a)
    ensures |b| >= |a| && (|b| == |a| ==> b == a)
    decreases |a|, 0
  {
    if a != [] && b != [] {
      var af, x, bf, y := a[..|a| - 1], a[|a| - 1], b[..|b| - 1], b[|b| - 1];
      FrontAndLast(a);
      FrontAndLast(b);
      FrontIsTight(a);
      SamePrint(af, x, bf, y);
      assert Alone(a, |af|) || !IsShort(x);
      if IsShort(x) == IsShort(y) {
        SameLast(af, x, bf, y);
        FewestBytes(af, bf);
      } else if IsShort(x) {
        AloneIsNoEnd(af, x, bf, y);
      } else {
        OneDigitMore(af, bf, HexDigit((x / 16) as nat));
      }
    } else {
      HexShape(a);
      HexShape(b);
    }
  }

  /** A byte that stands alone is not the second digit of another. */
  lemma AloneIsNoEnd(af: seq<byte>, x: byte, bf: seq<byte>, y: byte)
    requires Alone(af + [x], |af|) && IsShort(x) && !IsShort(y)
    ensures Stem(af, x) != Stem(bf, y)
  {
    if af != [] {
      var aff, z := af[..|af| - 1], af[|af| - 1];
      assert af == aff + [z] && (af + [x])[|af| - 1] == z;
      LastDigit(aff, z);
      if Stem(af, x) == Stem(bf, y) {
        SameEnds(Stem(aff, z), HexDigit((z % 16) as nat), Hex(bf), HexDigit((y / 16) as nat));
        HexDigitInjective((z % 16) as nat, (y / 16) as nat);
      }
    }
  }

  /** Last bytes of as many digits are the same if their last digit and what precedes it are. */
  lemma SameLast(af: seq<byte>, x: byte, bf: seq<byte>, y: byte)
    requires IsShort(x) == IsShort(y) && x % 16 == y % 16 && Stem(af, x) == Stem(bf, y)
    ensures x == y && Hex(af) == Hex(bf)
  {
    if !IsShort(x) {
      SameEnds(Hex(af), HexDigit((x / 16) as nat), Hex(bf), HexDigit((y / 16) as nat));
      HexDigitInjective((x / 16) as nat, (y / 16) as nat);
    }
  }

  /** One-digit bytes are as many as their digits, so each has its own. */
  lemma {:induction false} OneDigitEach(a: seq<byte>, b: seq<byte>)
    requires |b| == |a| && Hex(b) == Hex(a) && forall i | 0 <= i < |a| :: IsShort(a[i])
    ensures b == a
  {
    if a != [] {
      var af, x, bf, y := a[..|a| - 1], a[|a| - 1], b[..|b| - 1], b[|b| - 1];
      FrontAndLast(a);
      FrontAndLast(b);
      assert forall i | 0 <= i < |af| :: af[i] == a[i];
      ShortLength(a);
      ShortLast(bf, y);
      SamePrint(af, x, bf, y);
      SameLast(af, x, bf, y);
      OneDigitEach(af, bf);
    }
  }

  lemma ShortLast(front: seq<byte>, x: byte)
    requires |Hex(front + [x])| == |front| + 1
    ensures IsShort(x)
  {
    LastDigit(front, x);
    HexShape(front);
  }

  lemma {:induction false} ShortLength(a: seq<byte>)
    requires forall i | 0 <= i < |a| :: IsShort(a[i])
    ensures |Hex(a)| == |a|
  {
    if a != [] {
      ShortLength(a[..|a| - 1]);
    }
  }

  lemma RigidIsUnambiguous(a: seq<byte>)
    requires Rigid(a)
    ensures Unambiguous(a)
  {
    forall b | |b| == |a| && Hex(b) == Hex(a) ensures b == a {
      if forall i | 0 <= i < |a| :: IsShort(a[i]) {
        OneDigitEach(a, b);
      } else {
        FewestBytes(a, b);
      }
    }
  }

  lemma HexAppend(front: seq<byte>, x: byte)
    ensures Hex(front + [x]) == Hex(front) + HexByte(x)
  {
    assert (front + [x])[..|front|] == front;
  }

  lemma CutLast(a: seq<byte>, b: seq<byte>)
    requires b != []
    ensures a + b == (a + b[..|b| - 1]) + [b[|b| - 1]]
    ensures b == b[..|b| - 1] + [b[|b| - 1]]
  {
  }

  lemma {:induction false} HexConcat(a: seq<byte>, b: seq<byte>)
    ensures Hex(a + b) == Hex(a) + Hex(b)
  {
    if b == [] {
      assert a + b == a;
    } else {
      var front, x := b[..|b| - 1], b[|b| - 1];
      CutLast(a, b);
      HexAppend(a + front, x);
      HexAppend(front, x);
      HexConcat(a, front);
      Regroup3(Hex(a), Hex(front), HexByte(x));
    }
  }

  /** Bytes in the middle may be replaced by others that print alike. */
  lemma Replace(before: seq<byte>, these: seq<byte>, those: seq<byte>, after: seq<byte>)
    requires Hex(these) == Hex(those)
    ensures Hex(before + these + after) == Hex(before + those + after)
  {
    HexConcat(before, these);
    HexConcat(before, those);
    HexConcat(before + these, after);
    HexConcat(before + those, after);
  }

  /** A two-digit byte prints like its two digits as bytes. */
  lemma SplitByte(x: byte)
    requires !IsShort(x)
    ensures Hex([x]) == Hex([x / 16, x % 16])
  {
    HexTwo(x / 16, x % 16);
    HexOne(x);
  }

  lemma TwoDigits(p: byte, q: byte)
    requires 0 < p < 16 && q < 16
    ensures HexByte(p * 16 + q) == HexByte(p) + HexByte(q)
  {
    assert (p * 16 + q) / 16 == p && (p * 16 + q) % 16 == q;
  }

  /** The middle digit of three goes with the first as well as with the last, if neither pair begins with 0. */
  lemma MiddleDigit(p: byte, q: byte, r: byte)
    requires 0 < p < 16 && 0 < q < 16 && r < 16
    ensures Hex([p * 16 + q, r]) == Hex([p, q * 16 + r])
  {
    TwoDigits(p, q);
    TwoDigits(q, r);
    HexTwo(p * 16 + q, r);
    HexTwo(p, q * 16 + r);
    Regroup3(HexByte(p), HexByte(q), HexByte(r));
  }

  lemma CutPair(a: seq<byte>, k: nat)
    requires k + 1 < |a|
    ensures a[..k] + [a[k], a[k + 1]] + a[k + 2..] == a
  {
  }

  /** Another way to part the digits at `k` and the next place. */
  lemma Repart(a: seq<byte>, k: nat, x: byte, y: byte) returns (b: seq<byte>)
    requires k + 1 < |a| && Hex([a[k], a[k + 1]]) == Hex([x, y]) && x != a[k]
    ensures |b| == |a| && Hex(b) == Hex(a) && b != a
  {
    CutPair(a, k);
    Replace(a[..k], [a[k], a[k + 1]], [x, y], a[k + 2..]);
    b := a[..k] + [x, y] + a[k + 2..];
    assert b[k] == x;
  }

  lemma CutOne(a: seq<byte>, j: nat)
    requires j < |a|
    ensures a[..j] + [a[j]] + a[j + 1..] == a
  {
  }

  /** `b` is `a` with two bytes, of which the first is `x`, in the place of one. */
  predicate Widened(a: seq<byte>, j: nat, x: byte, b: seq<byte>)
    requires j < |a|
  {
    && |b| == |a| + 1 && b[j] == x
    && (forall i | 0 <= i < j :: b[i] == a[i]) && (forall i | j < i < |a| :: b[i + 1] == a[i])
  }

  lemma WidenedIs(a: seq<byte>, j: nat, x: byte, y: byte)
    requires j < |a|
    ensures Widened(a, j, x, a[..j] + [x, y] + a[j + 1..])
  {
  }

  /** `b` is `a` with the byte `x` in the place of two. */
  predicate Narrowed(a: seq<byte>, k: nat, x: byte, b: seq<byte>)
    requires k + 1 < |a|
  {
    && |b| == |a| - 1 && b[k] == x
    && (forall i | 0 <= i < k :: b[i] == a[i]) && (forall i | k + 1 < i < |a| :: b[i - 1] == a[i])
  }

  lemma NarrowedIs(a: seq<byte>, k: nat, x: byte)
    requires k + 1 < |a|
    ensures Narrowed(a, k, x, a[..k] + [x] + a[k + 2..])
  {
  }

  /** A two-digit byte split in two. */
  lemma SplitAt(a: seq<byte>, j: nat) returns (b: seq<byte>)
    requires j < |a| && !IsShort(a[j])
    ensures Widened(a, j, a[j] / 16, b) && Hex(b) == Hex(a)
  {
    var x, y := a[j] / 16, a[j] % 16;
    SplitByte(a[j]);
    Replace(a[..j], [a[j]], [x, y], a[j + 1..]);
    CutOne(a, j);
    WidenedIs(a, j, x, y);
    b := a[..j] + [x, y] + a[j + 1..];
  }

  /** Two one-digit bytes joined to one. */
  lemma JoinAt(a: seq<byte>, k: nat) returns (b: seq<byte>)
    requires k + 1 < |a| && 0 < a[k] < 16 && IsShort(a[k + 1])
    ensures Narrowed(a, k, a[k] * 16 + a[k + 1], b) && Hex(b) == Hex(a)
  {
    var joined := a[k] * 16 + a[k + 1];
    HexOne(joined);
    HexTwo(a[k], a[k + 1]);
    TwoDigits(a[k], a[k + 1]);
    Replace(a[..k], [a[k], a[k + 1]], [joined], a[k + 2..]);
    CutPair(a, k);
    NarrowedIs(a, k, joined);
    b := a[..k] + [joined] + a[k + 2..];
  }

  /** Two one-digit bytes joined at `k`, and a two-digit byte split at `j` to make up for it. */
  lemma JoinAndSplit(a: seq<byte>, k: nat, j: nat) returns (b: seq<byte>)
    requires k + 1 < |a| && 0 < a[k] < 16 && IsShort(a[k + 1]) && j < |a| && !IsShort(a[j])
    ensures |b| == |a| && Hex(b) == Hex(a) && b != a
  {
    if j < k {
      var longer := SplitAt(a, j);
      b := JoinAt(longer, k + 1);
      assert b[j] == longer[j] == a[j] / 16;
    } else {
      var shorter := JoinAt(a, k);
      b := SplitAt(shorter, j - 1);
      assert b[k] == shorter[k] == a[k] * 16 + a[k + 1];
    }
  }

  /** Bytes that are not rigid have a twin: as many others with the same print. */
  lemma Twin(a: seq<byte>) returns (b: seq<byte>)
    requires !Rigid(a)
    ensures |b| == |a| && Hex(b) == Hex(a) && b != a
  {
    var j :| 0 <= j < |a| && !IsShort(a[j]);
    var i :| 0 <= i < |a| && IsShort(a[i]) && !Alone(a, i);
    if i > 0 && a[i - 1] % 16 != 0 {
      b := TwinBefore(a, i - 1, j);
    } else {
      b := TwinAfter(a, i, j);
    }
  }

  /** The last digit of a byte, not 0, goes with the one-digit byte after it as well. */
  lemma TwinBefore(a: seq<byte>, k: nat, j: nat) returns (b: seq<byte>)
    requires k + 1 < |a| && a[k] % 16 != 0 && IsShort(a[k + 1]) && j < |a| && !IsShort(a[j])
    ensures |b| == |a| && Hex(b) == Hex(a) && b != a
  {
    if IsShort(a[k]) {
      b := JoinAndSplit(a, k, j);
    } else {
      MiddleDigit(a[k] / 16, a[k] % 16, a[k + 1]);
      b := Repart(a, k, a[k] / 16, (a[k] % 16) * 16 + a[k + 1]);
    }
  }

  /** A one-digit byte, not 0, goes with the digit after it as well. */
  lemma TwinAfter(a: seq<byte>, k: nat, j: nat) returns (b: seq<byte>)
    requires k + 1 < |a| && 0 < a[k] < 16 && j < |a| && !IsShort(a[j])
    ensures |b| == |a| && Hex(b) == Hex(a) && b != a
  {
    if IsShort(a[k + 1]) {
      b := JoinAndSplit(a, k, j);
    } else {
      SplitAgain(a[k], a[k + 1]);
      b := Repart(a, k, a[k] * 16 + a[k + 1] / 16, a[k + 1] % 16);
    }
  }

  lemma SplitAgain(x: byte, y: byte)
    requires 0 < x < 16 && !IsShort(y)
    ensures Hex([x, y]) == Hex([x * 16 + y / 16, y % 16])
  {
    var a, b := x * 16 + y / 16, y % 16;
    assert a as nat / 16 == x as nat && a as nat % 16 == y as nat / 16;
    HexTwo(x, y);
    HexTwo(a, b);
    assert HexByte(a) == [HexDigit(x as nat), HexDigit(y as nat / 16)];
  }

  /** Bytes can be told from all others, as many, by their print if and only if they are rigid. */
  lemma UnambiguousExactly(a: seq<byte>)
    ensures Unambiguous(a) <==> Rigid(a)
  {
    if Rigid(a) {
      RigidIsUnambiguous(a);
    } else {
      var b := Twin(a);
    }
  }

  /** If every byte has one digit, or every byte two, no other bytes, as many, print alike. */
  lemma EvenlyPrinted(a: seq<byte>)
    requires |Hex(a)| == |a| || |Hex(a)| == 2 * |a|
    ensures Unambiguous(a)
  {
    DigitCount(a);
    RigidIsUnambiguous(a);
  }

  lemma {:induction false} DigitCount(a: seq<byte>)
    ensures |a| <= |Hex(a)| <= 2 * |a|
    ensures |Hex(a)| == |a| ==> forall i | 0 <= i < |a| :: IsShort(a[i])
    ensures |Hex(a)| == 2 * |a| ==> forall i | 0 <= i < |a| :: !IsShort(a[i])
  {
    if a != [] {
      var front, x := a[..|a| - 1], a[|a| - 1];
      DigitCount(front);
      FrontAndLast(a);
      HexAppend(front, x);
      assert forall i | 0 <= i < |front| :: front[i] == a[i];
    }
  }
}
