/**
 What the customer may type, how the client writes it to the server, and how the server reads it back.
 The program's patterns are all anchored at both ends, so each is a predicate on a whole string.
 */
module Commands {
  import opened Wrappers
  import opened Text

  const MAX_ACT_SIZE := 64
  const MIN_PIN_SIZE := 4
  const MAX_PIN_SIZE := 6
  const MAX_AMT_LEN := 16

  predicate IsAmount(s: string) {
    1 <= |s| <= MAX_AMT_LEN && AllDigits(s)
  }

  predicate IsName(s: string) {
    1 <= |s| <= MAX_ACT_SIZE && AllWord(s)
  }

  predicate IsPin(s: string) {
    MIN_PIN_SIZE <= |s| <= MAX_PIN_SIZE && AllDigits(s)
  }

  /** What the customer asks for, and what the server is asked for. */
  datatype Command =
    | Withdraw(amount: string)
    | Deposit(amount: string)
    | Transfer(amount: string, recipient: string)
    | Balance
    | Exit

  predicate Wellformed(c: Command) {
    match c
    case Withdraw(amount) => IsAmount(amount)
    case Deposit(amount) => IsAmount(amount)
    case Transfer(amount, recipient) => IsAmount(amount) && IsName(recipient)
    case _ => true
  }

  /** An amount is a number of one to sixteen digits. */
  lemma AmountSyntax(s: string)
    ensures IsAmount(s) <==> 1 <= |s| <= 16 && forall i | 0 <= i < |s| :: '0' <= s[i] <= '9'
  {
  }

  /** A name has one to sixty-four letters, digits and underscores. */
  lemma NameSyntax(s: string)
    ensures IsName(s) <==>
            1 <= |s| <= 64 && forall i | 0 <= i < |s| ::
              'a' <= s[i] <= 'z' || 'A' <= s[i] <= 'Z' || '0' <= s[i] <= '9' || s[i] == '_'
  {
  }

  /** A PIN has four to six digits. */
  lemma PinSyntax(s: string)
    ensures IsPin(s) <==> 4 <= |s| <= 6 && forall i | 0 <= i < |s| :: '0' <= s[i] <= '9'
  {
  }

  // ---------- Splitting ----------

  predicate StartsWith(s: string, prefix: string) {
    |prefix| <= |s| && s[..|prefix|] == prefix
  }

  /** What precedes the first `sep` of `s`; all of `s` if there is none. */
  function Before(s: string, sep: char): (k: nat)
    ensures k <= |s| && sep !in s[..k] && (k < |s| ==> s[k] == sep)
  {
    if s == "" || s[0] == sep then 0 else 1 + Before(s[1..], sep)
  }

  lemma {:induction false} BeforeExact(a: string, sep: char, b: string)
    requires sep !in a
    ensures Before(a + [sep] + b, sep) == |a|
  {
    if a != "" {
      assert (a + [sep] + b)[1..] == a[1..] + [sep] + b;
      BeforeExact(a[1..], sep, b);
    }
  }

  /** An amount and a name with `sep` between them. */
  function AmountAndName(s: string, sep: char): Option<(string, string)> {
    var k := Before(s, sep);
    if k < |s| && IsAmount(s[..k]) && IsName(s[k + 1..]) then Some((s[..k], s[k + 1..])) else None
  }

  lemma AmountAndNameExact(s: string, sep: char, amount: string, name: string)
    requires !IsDigit(sep)
    ensures AmountAndName(s, sep) == Some((amount, name))
            <==> s == amount + [sep] + name && IsAmount(amount) && IsName(name)
  {
    if s == amount + [sep] + name && IsAmount(amount) {
      BeforeExact(amount, sep, name);
      assert s[..|amount|] == amount && s[|amount| + 1..] == name;
    }
    var k := Before(s, sep);
    if k < |s| {
      assert s == s[..k] + [sep] + s[k + 1..];
    }
  }

  // ---------- The client's side ----------

  function LowerChar(c: char): char {
    if 'A' <= c <= 'Z' then c - 'A' + 'a' else c
  }

  function Lower(s: string): string {
    seq(|s|, i requires 0 <= i < |s| => LowerChar(s[i]))
  }

  method ToLower(s: string) returns (out: string)
    ensures out == Lower(s)
  {
    out := "";
    for i := 0 to |s|
      invariant |out| == i && forall j | 0 <= j < i :: out[j] == LowerChar(s[j])
    {
      out := out + [LowerChar(s[i])];
    }
  }

  /** The client's tests, in its order, on the line in lower case. */
  function ParseLine(line: string): Option<Command> {
    var l := Lower(line);
    if StartsWith(l, "withdraw ") && IsAmount(l[9..]) then Some(Withdraw(l[9..]))
    else if StartsWith(l, "deposit ") && IsAmount(l[8..]) then Some(Deposit(l[8..]))
    else if StartsWith(l, "transfer ") && AmountAndName(l[9..], ' ').Some? then
      var (amount, recipient) := AmountAndName(l[9..], ' ').value;
      Some(Transfer(amount, recipient))
    else if l == "balance" then Some(Balance)
    else if l == "exit" then Some(Exit)
    else None
  }

  /** The line that asks for `c`. */
  function LineFor(c: Command): string {
    match c
    case Withdraw(amount) => "withdraw " + amount
    case Deposit(amount) => "deposit " + amount
    case Transfer(amount, recipient) => "transfer " + (amount + [' '] + recipient)
    case Balance => "balance"
    case Exit => "exit"
  }

  /** A line is taken for `c` exactly if, in lower case, it is the line that asks for `c`. */
  lemma LineGrammar(line: string, c: Command)
    ensures ParseLine(line) == Some(c) <==> Lower(line) == LineFor(c) && Wellformed(c)
  {
    var l := Lower(line);
    if StartsWith(l, "transfer ") {
      assert l == "transfer " + l[9..];
      if c.Transfer? {
        AmountAndNameExact(l[9..], ' ', c.amount, c.recipient);
      } else if AmountAndName(l[9..], ' ').Some? {
        AmountAndNameExact(l[9..], ' ', AmountAndName(l[9..], ' ').value.0, AmountAndName(l[9..], ' ').value.1);
      }
    }
    if StartsWith(l, "withdraw ") { assert l == "withdraw " + l[9..]; }
    if StartsWith(l, "deposit ") { assert l == "deposit " + l[8..]; }
    if Lower(line) == LineFor(c) && Wellformed(c) {
      match c {
        case Withdraw(amount) => assert l[9..] == amount && l[0] == 'w';
        case Deposit(amount) => assert l[8..] == amount && l[0] == 'd';
        case Transfer(amount, recipient) => assert l[9..] == amount + [' '] + recipient && l[0] == 't';
        case Balance => assert l[0] == 'b';
        case Exit => assert l[0] == 'e';
      }
    }
  }

  /** Lower case, by character codes: 26 letters move up by 32, everything else stays. */
  lemma LowerIsAscii(s: string)
    ensures |Lower(s)| == |s|
    ensures forall i | 0 <= i < |s| ::
              Lower(s)[i] as int == if 'A' <= s[i] <= 'Z' then s[i] as int + 32 else s[i] as int
  {
  }

  /** What the client takes a line for, letter by letter; every other line is invalid. */
  lemma LineSyntax(line: string, c: Command)
    ensures ParseLine(line) == Some(c) <==>
            match c
            case Withdraw(amount) => Lower(line) == "withdraw " + amount && IsAmount(amount)
            case Deposit(amount) => Lower(line) == "deposit " + amount && IsAmount(amount)
            case Transfer(amount, recipient) =>
              Lower(line) == "transfer " + (amount + (" " + recipient)) && IsAmount(amount) && IsName(recipient)
            case Balance => Lower(line) == "balance"
            case Exit => Lower(line) == "exit"
  {
    LineGrammar(line, c);
    if c.Transfer? {
      assert c.amount + [' '] + c.recipient == c.amount + (" " + c.recipient);
    }
  }

  function Encode(c: Command): string {
    match c
    case Withdraw(amount) => "W:" + amount
    case Deposit(amount) => "D:" + amount
    case Transfer(amount, recipient) => "T:" + (amount + [':'] + recipient)
    case Balance => "B:"
    case Exit => "EXIT."
  }

  // ---------- The server's side ----------

  predicate MatchesNonBalanceTransfer(s: string) {
    (StartsWith(s, "W:") || StartsWith(s, "D:")) && IsAmount(s[2..])
  }

  predicate MatchesBalance(s: string) {
    s == "B:"
  }

  predicate MatchesTransfer(s: string) {
    StartsWith(s, "T:") && AmountAndName(s[2..], ':').Some?
  }

  /** The server's branches, in its order; None is the message it answers with a failure unread. */
  function Decode(s: string): Option<Command> {
    if s == "EXIT." then Some(Exit)
    else if MatchesNonBalanceTransfer(s) then Some(if s[0] == 'W' then Withdraw(s[2..]) else Deposit(s[2..]))
    else if MatchesBalance(s) then Some(Balance)
    else if MatchesTransfer(s) then
      var (amount, recipient) := AmountAndName(s[2..], ':').value;
      Some(Transfer(amount, recipient))
    else None
  }

  /** No message fits two of the server's branches, so their order does not matter. */
  lemma BranchesDisjoint(s: string)
    ensures !(MatchesNonBalanceTransfer(s) && MatchesBalance(s))
    ensures !(MatchesNonBalanceTransfer(s) && MatchesTransfer(s))
    ensures !(MatchesBalance(s) && MatchesTransfer(s))
    ensures s == "EXIT." ==> !MatchesNonBalanceTransfer(s) && !MatchesBalance(s) && !MatchesTransfer(s)
  {
    if |s| >= 2 {
      assert s[..2][0] == s[0] && s[..2][1] == s[1];
    }
  }

  /** The server takes a message for `c` exactly if it is the message the client writes for `c`. */
  lemma MessageGrammar(s: string, c: Command)
    ensures Decode(s) == Some(c) <==> s == Encode(c) && Wellformed(c)
  {
    BranchesDisjoint(s);
    if |s| >= 2 {
      assert s == s[..2] + s[2..];
      assert s[..2][0] == s[0] && s[..2][1] == s[1];
    }
    if c.Transfer? {
      if StartsWith(s, "T:") { AmountAndNameExact(s[2..], ':', c.amount, c.recipient); }
    } else if MatchesTransfer(s) {
      AmountAndNameExact(s[2..], ':', AmountAndName(s[2..], ':').value.0, AmountAndName(s[2..], ':').value.1);
    }
    if s == Encode(c) && Wellformed(c) {
      match c {
        case Withdraw(amount) => assert s[2..] == amount;
        case Deposit(amount) => assert s[2..] == amount;
        case Transfer(amount, recipient) => assert s[2..] == amount + [':'] + recipient && s[..2] == "T:";
        case Balance =>
        case Exit =>
      }
    }
  }

  /** What the server takes a message for, letter by letter. */
  lemma MessageSyntax(s: string, c: Command)
    ensures Decode(s) == Some(c) <==>
            match c
            case Withdraw(amount) => s == "W:" + amount && IsAmount(amount)
            case Deposit(amount) => s == "D:" + amount && IsAmount(amount)
            case Transfer(amount, recipient) =>
              s == "T:" + (amount + (":" + recipient)) && IsAmount(amount) && IsName(recipient)
            case Balance => s == "B:"
            case Exit => s == "EXIT."
  {
    MessageGrammar(s, c);
    if c.Transfer? {
      assert c.amount + [':'] + c.recipient == c.amount + (":" + c.recipient);
    }
  }

  /** Whatever line the client accepts, the server reads the same request out of the client's message. */
  lemma CommandRoundTrip(line: string)
    ensures ParseLine(line).Some? ==>
              Wellformed(ParseLine(line).value) && Decode(Encode(ParseLine(line).value)) == ParseLine(line)
  {
    if ParseLine(line).Some? {
      LineGrammar(line, ParseLine(line).value);
      MessageGrammar(Encode(ParseLine(line).value), ParseLine(line).value);
    }
  }

  lemma EndOfLower(line: string, r: string, k: nat)
    requires k + |r| == |line| && Lower(line)[k..] == r
    ensures Lower(r) == r
  {
    forall i | 0 <= i < |r| ensures LowerChar(r[i]) == r[i] {
      assert r[i] == Lower(line)[k + i] == LowerChar(line[k + i]);
    }
  }

  /** The recipient that reaches the server is always in lower case, however it was typed. */
  lemma RecipientInLowerCase(line: string)
    requires ParseLine(line).Some? && ParseLine(line).value.Transfer?
    ensures Lower(ParseLine(line).value.recipient) == ParseLine(line).value.recipient
  {
    var l, c := Lower(line), ParseLine(line).value;
    LineGrammar(line, c);
    var k := |l| - |c.recipient|;
    assert l[k..] == c.recipient;
    EndOfLower(line, c.recipient, k);
  }

  // ---------- Login ----------

  function EncodeLogin(act: string, pin: string): string {
    act + [':'] + pin
  }

  function DecodeLogin(s: string): Option<(string, string)> {
    var k := Before(s, ':');
    if k < |s| && IsName(s[..k]) && IsPin(s[k + 1..]) then Some((s[..k], s[k + 1..])) else None
  }

  lemma LoginGrammar(s: string, act: string, pin: string)
    ensures DecodeLogin(s) == Some((act, pin)) <==> s == EncodeLogin(act, pin) && IsName(act) && IsPin(pin)
  {
    if s == EncodeLogin(act, pin) && IsName(act) {
      assert ':' !in act;
      BeforeExact(act, ':', pin);
      assert s[..|act|] == act && s[|act| + 1..] == pin;
    }
    var k := Before(s, ':');
    if k < |s| {
      assert s == s[..k] + [':'] + s[k + 1..];
    }
  }

  /** What the server takes for a login, character by character. */
  lemma LoginSyntax(s: string, act: string, pin: string)
    ensures DecodeLogin(s) == Some((act, pin)) <==>
            && s == act + (":" + pin)
            && 1 <= |act| <= 64
            && (forall i | 0 <= i < |act| ::
                  '0' <= act[i] <= '9' || 'a' <= act[i] <= 'z' || 'A' <= act[i] <= 'Z' || act[i] == '_')
            && 4 <= |pin| <= 6 && (forall i | 0 <= i < |pin| :: '0' <= pin[i] <= '9')
  {
    LoginGrammar(s, act, pin);
    assert act + [':'] + pin == act + (":" + pin);
  }
}
