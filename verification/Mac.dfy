/**
 The keyed messages by which client and server show each other that they know a trusted key. HMAC
 (section 2 of RFC 2104) is a parameter: any function from a key and a message to a digest.
 */
module Mac {
  import opened Wrappers
  import opened Text
  import opened Hexadecimal
  import Commands

  type Hmac = (string, string) -> seq<byte>

  // ---------- Making and checking ----------

  function GetMac(hmac: Hmac, msg: string, key: string): string {
    Hex(hmac(key, msg))
  }

  /** The random part in hexadecimal, a colon, its keyed digest in hexadecimal. */
  function MakeMac(hmac: Hmac, key: string, random: seq<byte>): string {
    Hex(random) + [':'] + GetMac(hmac, Hex(random), key)
  }

  /** The two words around the single colon. */
  function Split(s: string): Option<(string, string)> {
    var k := Commands.Before(s, ':');
    if 0 < k < |s| && k + 1 < |s| && AllWord(s[..k]) && AllWord(s[k + 1..]) then Some((s[..k], s[k + 1..])) else None
  }

  predicate KeyFits(hmac: Hmac, key: string, s: string) {
    Split(s).Some? && GetMac(hmac, Split(s).value.0, key) == Split(s).value.1
  }

  /** The keys of a trust file: its tokens. */
  function Keys(text: string): seq<string>
    decreases |text|
  {
    var (key, rest) := NextToken(text);
    if key == "" then [] else [key] + Keys(rest)
  }

  predicate Accepts(hmac: Hmac, trusted: string, s: string) {
    exists i | 0 <= i < |Keys(trusted)| :: KeyFits(hmac, Keys(trusted)[i], s)
  }

  method ReadKeys(trusted: string) returns (macKeys: seq<string>)
    ensures macKeys == Keys(trusted)
  {
    macKeys := [];
    var rest := trusted;
    while true
      invariant Keys(trusted) == macKeys + Keys(rest)
      decreases |rest|
    {
      var (tmpKey, after) := NextToken(rest);
      if tmpKey == "" {
        break;
      }
      assert macKeys + ([tmpKey] + Keys(after)) == macKeys + [tmpKey] + Keys(after);
      macKeys := macKeys + [tmpKey];
      rest := after;
    }
  }

  method CheckMac(hmac: Hmac, trusted: string, s: string) returns (r: bool)
    ensures r == Accepts(hmac, trusted, s)
  {
    var macKeys := ReadKeys(trusted);
    for i := 0 to |macKeys|
      invariant forall j | 0 <= j < i :: !KeyFits(hmac, macKeys[j], s)
    {
      var parts := Split(s);
      if parts.None? {
        continue;
      }
      if GetMac(hmac, parts.value.0, macKeys[i]) == parts.value.1 {
        assert KeyFits(hmac, macKeys[i], s);
        return true;
      }
    }
    return false;
  }

  lemma SplitMade(m: string, d: string)
    requires m != "" && d != "" && AllWord(m) && AllWord(d)
    ensures Split(m + [':'] + d) == Some((m, d))
  {
    assert ':' !in m;
    Commands.BeforeExact(m, ':', d);
    var s := m + [':'] + d;
    assert s[..|m|] == m && s[|m| + 1..] == d;
  }

  lemma KeyFitsMade(hmac: Hmac, key: string, random: seq<byte>, other: string)
    requires random != [] && hmac(key, Hex(random)) != []
    ensures KeyFits(hmac, other, MakeMac(hmac, key, random)) <==>
            GetMac(hmac, Hex(random), other) == GetMac(hmac, Hex(random), key)
  {
    HexShape(random);
    HexShape(hmac(key, Hex(random)));
    SplitMade(Hex(random), GetMac(hmac, Hex(random), key));
  }

  // ---------- The trust file ----------

  /** The keys of a list, one to a line. */
  function Lines(keys: seq<string>): string {
    if keys == [] then "" else keys[0] + "\n" + Lines(keys[1..])
  }

  predicate AllTokens(keys: seq<string>) {
    forall i | 0 <= i < |keys| :: IsToken(keys[i])
  }

  /** One key is taken from the text, whatever white space is around it; white space alone holds none. */
  lemma KeyIsTaken(gap: string, key: string, rest: string)
    requires forall i | 0 <= i < |gap| :: gap[i] == ' ' || '\t' <= gap[i] <= '\r'
    requires IsToken(key) && (rest == "" || rest[0] == ' ' || '\t' <= rest[0] <= '\r')
    ensures Keys(gap + (key + rest)) == [key] + Keys(rest)
    ensures Keys(gap) == []
  {
    TokenIsRead(gap, key, rest);
    TokenIsRead(gap, "", "");
    assert gap + ("" + "") == gap;
  }

  lemma GapIsSkipped(c: char, rest: string)
    requires c == ' ' || '\t' <= c <= '\r'
    ensures Keys([c] + rest) == Keys(rest)
  {
    NextTokenSkips(c, rest);
  }

  /** Every key of the file is read, in its order. */
  lemma {:induction false} KeysOfLines(keys: seq<string>)
    requires AllTokens(keys)
    ensures Keys(Lines(keys)) == keys
  {
    if keys == [] {
      assert Keys("") == [] by { TokenIsRead("", "", ""); assert "" + ("" + "") == ""; }
    } else {
      var key, rest := keys[0], Lines(keys[1..]);
      KeyIsTaken("", key, "\n" + rest);
      assert "" + (key + ("\n" + rest)) == key + "\n" + rest;
      assert ['\n'] + rest == "\n" + rest;
      GapIsSkipped('\n', rest);
      KeysOfLines(keys[1..]);
      assert [key] + keys[1..] == keys;
    }
  }

  /** A keyed message is two words with a colon between them; there is one way to take it apart. */
  lemma SplitSyntax(s: string, m: string, d: string)
    ensures Split(s) == Some((m, d)) <==> s == m + (":" + d) && m != "" && d != "" && AllWord(m) && AllWord(d)
  {
    if s == m + (":" + d) && m != "" && d != "" && AllWord(m) && AllWord(d) {
      assert s == m + [':'] + d;
      SplitMade(m, d);
    }
    if Split(s).Some? {
      var k := Commands.Before(s, ':');
      assert s == s[..k] + (":" + s[k + 1..]);
    }
  }

  /**
   Against a trust file with these keys, one to a line: two words around a colon are accepted exactly if the second is
   the print of the first one's digest under some key of the file, the first, the last or any other; and nothing else
   is accepted.
   */
  lemma FileDecides(hmac: Hmac, keys: seq<string>, s: string, m: string, d: string)
    requires AllTokens(keys)
    ensures s == m + (":" + d) && m != "" && d != "" && AllWord(m) && AllWord(d) ==>
              (Accepts(hmac, Lines(keys), s) <==> exists i | 0 <= i < |keys| :: Hex(hmac(keys[i], m)) == d)
    ensures Accepts(hmac, Lines(keys), s) ==> Split(s).Some?
  {
    KeysOfLines(keys);
    SplitSyntax(s, m, d);
    if Split(s) == Some((m, d)) {
      forall i | 0 <= i < |keys| ensures KeyFits(hmac, keys[i], s) <==> Hex(hmac(keys[i], m)) == d {
      }
    }
  }

  /** Some key of the list prints the same digest of `m` as `key`. */
  predicate SomeAgrees(hmac: Hmac, m: string, keys: seq<string>, key: string) {
    exists i | 0 <= i < |keys| :: GetMac(hmac, m, keys[i]) == GetMac(hmac, m, key)
  }

  /**
   A made message is accepted exactly if some trusted key, at whatever position, prints the same digest of
   the random part as the maker's key; so always if the maker's key is trusted.
   */
  lemma MacAgreement(hmac: Hmac, key: string, random: seq<byte>, trusted: string)
    requires random != [] && hmac(key, Hex(random)) != []
    ensures Accepts(hmac, trusted, MakeMac(hmac, key, random)) <==> SomeAgrees(hmac, Hex(random), Keys(trusted), key)
    ensures key in Keys(trusted) ==> Accepts(hmac, trusted, MakeMac(hmac, key, random))
  {
    var s, keys := MakeMac(hmac, key, random), Keys(trusted);
    forall i | 0 <= i < |keys|
      ensures KeyFits(hmac, keys[i], s) <==> GetMac(hmac, Hex(random), keys[i]) == GetMac(hmac, Hex(random), key)
    {
      KeyFitsMade(hmac, key, random, keys[i]);
    }
  }

  /** A message made with a key that stands anywhere in the trust file is accepted. */
  lemma AnyKeyOfTheFile(hmac: Hmac, key: string, random: seq<byte>, before: seq<string>, after: seq<string>)
    requires random != [] && hmac(key, Hex(random)) != [] && AllTokens(before + [key] + after)
    ensures Accepts(hmac, Lines(before + [key] + after), MakeMac(hmac, key, random))
  {
    var keys := before + [key] + after;
    KeysOfLines(keys);
    assert keys[|before|] == key;
    MacAgreement(hmac, key, random, Lines(keys));
  }

  /** What is made and sent: the random bytes in hexadecimal, a colon, and the print of their digest. */
  lemma MadeMessage(hmac: Hmac, keys: seq<string>, key: string, random: seq<byte>)
    requires random != [] && hmac(key, Hex(random)) != [] && AllTokens(keys)
    ensures MakeMac(hmac, key, random) == Hex(random) + (":" + Hex(hmac(key, Hex(random))))
    ensures Accepts(hmac, Lines(keys), MakeMac(hmac, key, random)) <==>
            exists i | 0 <= i < |keys| :: Hex(hmac(keys[i], Hex(random))) == Hex(hmac(key, Hex(random)))
  {
    HexShape(random);
    HexShape(hmac(key, Hex(random)));
    FileDecides(hmac, keys, MakeMac(hmac, key, random), Hex(random), Hex(hmac(key, Hex(random))));
  }

  /** Some key of the list has the same digest of `m` as `key`. */
  predicate SomeSameDigest(hmac: Hmac, m: string, keys: seq<string>, key: string) {
    exists i | 0 <= i < |keys| :: hmac(keys[i], m) == hmac(key, m)
  }

  /**
   Prints are compared, not digests; where the maker's digest is rigid that is the same: the message is
   accepted exactly if some trusted key has the same digest.
   */
  lemma DigestsAreCompared(hmac: Hmac, key: string, random: seq<byte>, trusted: string)
    requires random != [] && forall k :: |hmac(k, Hex(random))| == 32
    requires Rigid(hmac(key, Hex(random)))
    ensures Accepts(hmac, trusted, MakeMac(hmac, key, random))
            <==> SomeSameDigest(hmac, Hex(random), Keys(trusted), key)
  {
    var m, keys := Hex(random), Keys(trusted);
    MacAgreement(hmac, key, random, trusted);
    RigidIsUnambiguous(hmac(key, m));
    forall i | 0 <= i < |keys|
      ensures hmac(keys[i], m) == hmac(key, m) <==> GetMac(hmac, m, keys[i]) == GetMac(hmac, m, key)
    {
      assert |hmac(keys[i], m)| == |hmac(key, m)|;
    }
  }

  /**
   And only there: if the maker's digest is not rigid, there are keyed digests, the maker's among them, under
   which a message is accepted though the one trusted key has another digest.
   */
  lemma LookAlike(hmac: Hmac, key: string, random: seq<byte>, other: string) returns (hmac': Hmac)
    requires random != [] && !Rigid(hmac(key, Hex(random))) && other != key && IsToken(other)
    ensures hmac'(key, Hex(random)) == hmac(key, Hex(random))
    ensures |hmac'(other, Hex(random))| == |hmac(key, Hex(random))|
    ensures Accepts(hmac', other, MakeMac(hmac', key, random))
    ensures !SomeSameDigest(hmac', Hex(random), Keys(other), key)
  {
    var m := Hex(random);
    var twin := Twin(hmac(key, m));
    hmac' := (k, s) => if k == other && s == m then twin else hmac(k, s);
    NextTokenExact(other, "");
    assert other + "" == other;
    assert Keys(other) == [other];
    MacAgreement(hmac', key, random, other);
    assert GetMac(hmac', m, Keys(other)[0]) == GetMac(hmac', m, key);
  }

  /**
   With 64 random bytes and a digest of 32 a made message has at most 193 characters, so it fits the 245 that one
   RSA block of 2048 bits has room for under PKCS #1 v1.5 padding (section 7.2.1 of RFC 8017).
   */
  lemma MacFits(hmac: Hmac, key: string, random: seq<byte>)
    requires |random| == 64 && |hmac(key, Hex(random))| == 32
    ensures |MakeMac(hmac, key, random)| <= 193 <= 245
  {
    HexShape(random);
    HexShape(hmac(key, Hex(random)));
  }
}
