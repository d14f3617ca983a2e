/**
  The trace filter: the text of an expression, the recursive bracket parser, the tree it builds and the records the
  tree accepts.
*/
module TraceFilterModel {
  import opened Options
  import opened Radix

  // ---------- trees ----------

  // A comparison of one field, by its name, with a value of the field's width.
  datatype Field = Field(name: string, op: string, value: nat)

  datatype Node = Leaf(f: Field) | And(left: Node, right: Node) | Or(left: Node, right: Node)

  // A trace record: the value of every field.
  type Record = string -> nat

  function Width(name: string): Option<nat> {
    if name == "time" then Some(0x1_0000_0000_0000_0000)
    else if name in {"qlen", "sip", "dip", "data.seq"} then Some(0x1_0000_0000)
    else if name in {"node", "size", "data.sport", "data.dport", "ack.sport", "ack.dport", "qp.sport", "qp.dport"} then
      Some(0x1_0000)
    else if name in {"nodeType", "intf", "qidx", "l3Prot", "event", "ecn", "ack.flags"} then Some(0x100)
    else None
  }

  predicate Compare(x: nat, op: string, value: nat) {
    if op == "=" then x == value
    else if op == ">" then x > value
    else if op == ">=" then x >= value
    else if op == "<" then x < value
    else if op == "<=" then x <= value
    else op == "!=" && x != value
  }

  predicate Accepts(n: Node, r: Record) {
    match n
    case Leaf(f) => Compare(r(f.name), f.op, f.value)
    case And(a, b) => Accepts(a, r) && Accepts(b, r)
    case Or(a, b) => Accepts(a, r) || Accepts(b, r)
  }

  // A filter without a tree accepts every record.
  predicate Passes(root: Option<Node>, r: Record) { root.None? || Accepts(root.value, r) }

  // ---------- characters ----------

  datatype Kind = Spaces | FieldChars | ValueChars | Decimals | Octals | Hexes

  predicate IsDigit(c: char) { '0' <= c <= '9' }

  predicate IsHex(c: char) { IsDigit(c) || 'a' <= c <= 'f' || 'A' <= c <= 'F' }

  predicate Is(k: Kind, c: char) {
    match k
    case Spaces => c == ' ' || 9 as char <= c <= 13 as char
    case FieldChars => IsDigit(c) || 'a' <= c <= 'z' || 'A' <= c <= 'Z' || c == '.'
    case ValueChars => IsHex(c) || c == 'x' || c == ','
    case Decimals => IsDigit(c)
    case Octals => '0' <= c <= '7'
    case Hexes => IsHex(c)
  }

  // The number of characters of a kind at the front.
  function Span(s: string, k: Kind): (n: nat)
    ensures n <= |s| && (n < |s| ==> !Is(k, s[n])) && forall i :: 0 <= i < n ==> Is(k, s[i])
  {
    if s == "" || !Is(k, s[0]) then 0 else 1 + Span(s[1..], k)
  }

  function Skip(s: string): string { s[Span(s, Spaces)..] }

  // The characters of a kind after any spaces, and the text after them.
  function Token(s: string, k: Kind): (string, string) {
    var a := Skip(s);
    (a[..Span(a, k)], a[Span(a, k)..])
  }

  // ---------- numbers ----------

  function DigitValue(c: char): nat
    requires IsHex(c)
  {
    if IsDigit(c) then c as nat - '0' as nat
    else if 'a' <= c <= 'f' then c as nat - 'a' as nat + 10
    else c as nat - 'A' as nat + 10
  }

  function ValueOf(s: string, base: nat): nat
    requires forall i :: 0 <= i < |s| ==> IsHex(s[i])
  {
    if s == "" then 0 else ValueOf(s[..|s| - 1], base) * base + DigitValue(s[|s| - 1])
  }

  datatype Scan = NoNumber | Number(value: nat, rest: string)

  function ScanDigits(s: string, k: Kind, base: nat): Scan
    requires k in {Decimals, Octals, Hexes}
  {
    var n := Span(s, k);
    if n == 0 then NoNumber else Number(ValueOf(s[..n], base), s[n..])
  }

  // The integer conversion of scanf that takes the base from the text.
  function ScanInt(s: string): Scan {
    if |s| >= 2 && s[0] == '0' && s[1] == 'x' then ScanDigits(s[2..], Hexes, 16)
    else if s != "" && s[0] == '0' then ScanDigits(s, Octals, 8)
    else ScanDigits(s, Decimals, 10)
  }

  const MAX_SIGNED := 0x7fff_ffff_ffff_ffff
  const MAX_UNSIGNED := 0xffff_ffff_ffff_ffff

  // The value of a base expression; a text that is not a number counts as 0.
  function ReadValue(value: string): nat {
    match ScanInt(value)
    case Number(v, _) => Min(v, MAX_SIGNED)
    case NoNumber => 0
  }

  function GetField(name: string, op: string, value: string): Option<Field> {
    match Width(name)
    case Some(w) => Some(Field(name, op, ReadValue(value) % w))
    case None => None
  }

  // ---------- shorthands ----------

  function Digit(d: nat): char
    requires d < 10
  {
    "0123456789"[d]
  }

  function Decimal(n: nat): string {
    if n < 10 then [Digit(n)] else Decimal(n / 10) + [Digit(n % 10)]
  }

  datatype Tuple = Tuple(sip: nat, dip: nat, sport: nat, dport: nat)
  {
    function Reversed(): Tuple { Tuple(dip, sip, dport, sport) }
  }

  // The text after a comma.
  function AfterComma(s: string): Option<string> { if s != "" && s[0] == ',' then Some(s[1..]) else None }

  function ScanAfterComma(scan: Scan, k: Kind): Scan
    requires k in {Octals, Decimals}
  {
    match scan
    case NoNumber => NoNumber
    case Number(_, rest) =>
      match AfterComma(rest)
      case None => NoNumber
      case Some(s) => if k == Octals then ScanInt(s) else ScanDigits(s, Decimals, 10)
  }

  // Two addresses in any base and two decimal ports.
  function ScanTuple(value: string): Option<Tuple> {
    var a := ScanInt(value);
    var b := ScanAfterComma(a, Octals);
    var c := ScanAfterComma(b, Decimals);
    var d := ScanAfterComma(c, Decimals);
    if a.NoNumber? || b.NoNumber? || c.NoNumber? || d.NoNumber? then None
    else Some(Tuple(Min(a.value, MAX_SIGNED) % 0x1_0000_0000, Min(b.value, MAX_SIGNED) % 0x1_0000_0000,
                    Min(c.value, MAX_UNSIGNED) % 0x1_0000, Min(d.value, MAX_UNSIGNED) % 0x1_0000))
  }

  function ScanQueue(value: string): Option<(nat, nat, nat)> {
    var a := ScanDigits(value, Decimals, 10);
    var b := ScanAfterComma(a, Decimals);
    var c := ScanAfterComma(b, Decimals);
    if a.NoNumber? || b.NoNumber? || c.NoNumber? then None
    else Some((Min(a.value, MAX_UNSIGNED) % 0x1_0000, Min(b.value, MAX_UNSIGNED) % 0x100,
               Min(c.value, MAX_UNSIGNED) % 0x100))
  }

  function Equals(field: string, value: string): string { field + "=" + value }

  function Bracket(s: string): string { "(" + s + ")" }

  function Join(a: string, connective: char, b: string): string { a + ([connective] + b) }

  function Ports(sport: string, dport: string, t: Tuple): string {
    Join(Equals(sport, Decimal(t.sport)), '&', Equals(dport, Decimal(t.dport)))
  }

  function FlowText(t: Tuple): string {
    Join(Equals("sip", Decimal(t.sip)), '&', Join(Equals("dip", Decimal(t.dip)), '&', Bracket(ProtocolText(t))))
  }

  function ProtocolText(t: Tuple): string {
    var data := Join(Equals("l3Prot", "17"), '&', Ports("data.sport", "data.dport", t));
    var acks := Join(Equals("l3Prot", "0xFC"), '|', Equals("l3Prot", "0xFD"));
    var ack := Join(Bracket(acks), '&', Ports("ack.sport", "ack.dport", t));
    var qp := Join(Equals("l3Prot", "0x0"), '&', Ports("qp.sport", "qp.dport", t));
    Join(Bracket(data), '|', Join(Bracket(ack), '|', Bracket(qp)))
  }

  function QueueText(q: (nat, nat, nat)): string {
    Join(Equals("node", Decimal(q.0)), '&', Join(Equals("intf", Decimal(q.1)), '&', Equals("qidx", Decimal(q.2))))
  }

  // The expression a shorthand stands for.
  function Expand(name: string, op: string, value: string): Option<string> {
    if name in {"flow", "biflow", "rflow"} then
      match ScanTuple(value)
      case None => None
      case Some(t) =>
        if op != "=" then None
        else if name == "flow" then Some(FlowText(t))
        else if name == "rflow" then Some(FlowText(t.Reversed()))
        else Some(Join(Bracket(FlowText(t)), '|', Bracket(FlowText(t.Reversed()))))
    else if name == "queue" && op == "=" then
      match ScanQueue(value)
      case None => None
      case Some(q) => Some(QueueText(q))
    else None
  }

  // ---------- the parser ----------

  function ScanOp(s: string): (op: string)
    ensures |op| <= |s|
  {
    if |s| >= 2 && s[0] in {'>', '<', '!'} && s[1] == '=' then s[..2]
    else if |s| >= 1 && s[0] in {'=', '>', '<'} then s[..1]
    else ""
  }

  // A base expression at the front of the text, with what follows it.
  datatype Base = NoBase | Base(field: string, op: string, value: string, rest: string)

  function ScanBase(s: string): Base {
    var field := Token(s, FieldChars);
    if field.0 == "" then NoBase else ScanComparison(field.0, Skip(field.1))
  }

  function ScanComparison(field: string, s: string): Base {
    var op := ScanOp(s);
    var value := Token(s[|op|..], ValueChars);
    if op == "" || value.0 == "" then NoBase else Base(field, op, value.0, Skip(value.1))
  }

  // How far the closing bracket is, c brackets being open; the length of the text when it is missing.
  function CloseIn(s: string, c: nat): (n: nat)
    requires c > 0
    ensures n <= |s| && (n < |s| ==> s[n] == ')')
    decreases |s|
  {
    if s == "" || (s[0] == ')' && c == 1) then 0
    else 1 + CloseIn(s[1..], if s[0] == '(' then c + 1 else if s[0] == ')' then c - 1 else c)
  }

  // What an outer pair of brackets holds, if the text is such a pair with nothing but spaces around it.
  function Inside(s: string): Option<string> {
    var a := Skip(s);
    if a == "" || a[0] != '(' then None
    else
      var n := CloseIn(a[1..], 1);
      if n == |a| - 1 || Skip(a[n + 2..]) != "" then None else Some(a[1..][..n])
  }

  lemma InsideShorter(s: string)
    ensures Inside(s).Some? ==> |Inside(s).value| < |s|
  {
  }

  function Strip(s: string): string
    decreases |s|
  {
    InsideShorter(s);
    if Inside(s).None? then s else Strip(Inside(s).value)
  }

  // The part of the text on the first line.
  function FirstLine(s: string): (n: nat)
    ensures n <= |s|
  {
    if s == "" || s[0] == '\n' || s[0] == '\r' then 0 else 1 + FirstLine(s[1..])
  }

  // A connective and the expression after it: on one line, but for spaces at the end when those are allowed.
  function Connective(s: string, spaces: bool): Option<string> {
    if s == "" || (s[0] != '&' && s[0] != '|') then None
    else
      var n := FirstLine(s[1..]);
      if n == |s| - 1 || (spaces && Skip(s[1..][n..]) == "") then Some(s[1..][..n]) else None
  }

  // The letters that occur in the names of the shorthands only.
  function Weight(s: string): nat {
    if s == "" then 0 else Weight(s[..|s| - 1]) + (if s[|s| - 1] == 'w' || s[|s| - 1] == 'u' then 1 else 0)
  }

  lemma {:induction false} WeightConcat(a: string, b: string)
    ensures Weight(a + b) == Weight(a) + Weight(b)
    decreases |b|
  {
    if b == "" {
      assert a + b == a;
    } else {
      WeightConcat(a, b[..|b| - 1]);
      assert (a + b)[..|a + b| - 1] == a + b[..|b| - 1];
    }
  }

  // A stretch of the text is no longer and has no more of those letters.
  predicate Smaller(t: string, s: string) { |t| <= |s| && Weight(t) <= Weight(s) }

  lemma SliceSmaller(s: string, i: nat, j: nat)
    requires i <= j <= |s|
    ensures Smaller(s[i..j], s)
  {
    hide Weight;
    WeightConcat(s[..i], s[i..j]);
    WeightConcat(s[..j], s[j..]);
    SlicesJoin(s, i, j);
  }

  lemma SlicesJoin(s: string, i: nat, j: nat)
    requires i <= j <= |s|
    ensures s[..i] + s[i..j] == s[..j] && s[..j] + s[j..] == s
  {
  }

  lemma SkipSmaller(s: string)
    ensures Smaller(Skip(s), s)
  {
    SliceSmaller(s, Span(s, Spaces), |s|);
    assert s[Span(s, Spaces)..|s|] == Skip(s);
  }

  lemma TokenSmaller(s: string, k: Kind)
    ensures Smaller(Token(s, k).1, s) && Smaller(Token(s, k).0, s)
    ensures |Token(s, k).0| + |Token(s, k).1| <= |s|
  {
    hide Weight;
    var a := Skip(s);
    SkipSmaller(s);
    var n := Span(a, k);
    SliceSmaller(a, 0, n);
    SliceSmaller(a, n, |a|);
    assert a[0..n] == a[..n] && a[n..|a|] == a[n..];
  }

  lemma InsideSmaller(s: string)
    requires Inside(s).Some?
    ensures Smaller(Inside(s).value, s) && |Inside(s).value| < |s|
  {
    hide Weight;
    var a := Skip(s);
    SkipSmaller(s);
    InsideShorter(s);
    var n := CloseIn(a[1..], 1);
    SliceSmaller(a, 1, 1 + n);
    assert a[1..1 + n] == a[1..][..n];
  }

  lemma {:induction false} StripSmaller(s: string)
    ensures Smaller(Strip(s), s)
    decreases |s|
  {
    hide Weight, Inside;
    InsideShorter(s);
    if Inside(s).Some? {
      InsideSmaller(s);
      StripSmaller(Inside(s).value);
    }
  }

  lemma ConnectiveSmaller(s: string, spaces: bool)
    requires Connective(s, spaces).Some?
    ensures Smaller(Connective(s, spaces).value, s) && |Connective(s, spaces).value| < |s|
  {
    hide Weight;
    var n := FirstLine(s[1..]);
    SliceSmaller(s, 1, 1 + n);
    assert s[1..1 + n] == s[1..][..n];
  }

  lemma BaseSmaller(s: string)
    requires ScanBase(s).Base?
    ensures Smaller(ScanBase(s).rest, s) && Weight(ScanBase(s).field) <= Weight(s) && |ScanBase(s).rest| < |s|
  {
    hide Weight, Token, Skip, ScanOp;
    var field := Token(s, FieldChars);
    TokenSmaller(s, FieldChars);
    var a := Skip(field.1);
    SkipSmaller(field.1);
    var op := ScanOp(a);
    SliceSmaller(a, |op|, |a|);
    assert a[|op|..|a|] == a[|op|..];
    var value := Token(a[|op|..], ValueChars);
    TokenSmaller(a[|op|..], ValueChars);
    SkipSmaller(value.1);
  }

  // ---------- what shorthands stand for is lighter ----------

  predicate Light(s: string) { forall i :: 0 <= i < |s| ==> s[i] != 'w' && s[i] != 'u' }

  lemma {:induction false} LightWeighsNothing(s: string)
    requires Light(s)
    ensures Weight(s) == 0
    decreases |s|
  {
    if s != "" { LightWeighsNothing(s[..|s| - 1]); }
  }

  lemma {:induction false} DecimalLight(n: nat)
    ensures Light(Decimal(n))
  {
    if n >= 10 { DecimalLight(n / 10); }
  }

  lemma EqualsLight(field: string, value: string)
    requires Light(field) && Light(value)
    ensures Light(Equals(field, value))
  {
    assert Light("=");
  }

  lemma PortsLight(sport: string, dport: string, t: Tuple)
    requires Light(sport) && Light(dport)
    ensures Light(Ports(sport, dport, t))
  {
    hide Equals, Decimal;
    DecimalLight(t.sport);
    DecimalLight(t.dport);
    EqualsLight(sport, Decimal(t.sport));
    EqualsLight(dport, Decimal(t.dport));
  }

  lemma ProtocolLight(t: Tuple)
    ensures Light(ProtocolText(t))
  {
    hide Equals, Ports, Join, Bracket;
    assert Light("l3Prot") && Light("17") && Light("0xFC") && Light("0xFD") && Light("0x0");
    EqualsLight("l3Prot", "17");
    EqualsLight("l3Prot", "0xFC");
    EqualsLight("l3Prot", "0xFD");
    EqualsLight("l3Prot", "0x0");
    PortsLight("data.sport", "data.dport", t);
    PortsLight("ack.sport", "ack.dport", t);
    PortsLight("qp.sport", "qp.dport", t);
    var data := Join(Equals("l3Prot", "17"), '&', Ports("data.sport", "data.dport", t));
    var acks := Join(Equals("l3Prot", "0xFC"), '|', Equals("l3Prot", "0xFD"));
    var ack := Join(Bracket(acks), '&', Ports("ack.sport", "ack.dport", t));
    var qp := Join(Equals("l3Prot", "0x0"), '&', Ports("qp.sport", "qp.dport", t));
    JoinLight(Equals("l3Prot", "17"), '&', Ports("data.sport", "data.dport", t));
    JoinLight(Equals("l3Prot", "0xFC"), '|', Equals("l3Prot", "0xFD"));
    BracketLight(acks);
    JoinLight(Bracket(acks), '&', Ports("ack.sport", "ack.dport", t));
    JoinLight(Equals("l3Prot", "0x0"), '&', Ports("qp.sport", "qp.dport", t));
    BracketLight(data);
    BracketLight(ack);
    BracketLight(qp);
    JoinLight(Bracket(ack), '|', Bracket(qp));
    JoinLight(Bracket(data), '|', Join(Bracket(ack), '|', Bracket(qp)));
  }

  lemma JoinLight(a: string, c: char, b: string)
    requires Light(a) && Light(b) && c != 'w' && c != 'u'
    ensures Light(Join(a, c, b))
  {
  }

  lemma BracketLight(a: string)
    requires Light(a)
    ensures Light(Bracket(a))
  {
  }

  lemma FlowLight(t: Tuple)
    ensures Light(FlowText(t))
  {
    hide Equals, ProtocolText, Decimal;
    assert Light("sip") && Light("dip");
    DecimalLight(t.sip);
    DecimalLight(t.dip);
    EqualsLight("sip", Decimal(t.sip));
    EqualsLight("dip", Decimal(t.dip));
    ProtocolLight(t);
  }

  lemma QueueLight(q: (nat, nat, nat))
    ensures Light(QueueText(q))
  {
    hide Equals, Decimal;
    assert Light("node") && Light("intf") && Light("qidx");
    DecimalLight(q.0);
    DecimalLight(q.1);
    DecimalLight(q.2);
    EqualsLight("node", Decimal(q.0));
    EqualsLight("intf", Decimal(q.1));
    EqualsLight("qidx", Decimal(q.2));
  }

  lemma NamesWeigh(name: string)
    requires name in {"flow", "biflow", "rflow", "queue"}
    ensures Weight(name) > 0
  {
    if name == "queue" {
      assert "queue" == "qu" + "eue";
      WeightConcat("qu", "eue");
    }
  }

  lemma ExpandLighter(name: string, op: string, value: string)
    requires Expand(name, op, value).Some?
    ensures Weight(Expand(name, op, value).value) == 0 < Weight(name)
  {
    hide ScanTuple, ScanQueue, FlowText, QueueText;
    NamesWeigh(name);
    if name == "queue" {
      QueueLight(ScanQueue(value).value);
    } else {
      var t := ScanTuple(value).value;
      FlowLight(t);
      FlowLight(t.Reversed());
    }
    LightWeighsNothing(Expand(name, op, value).value);
  }

  // ---------- parsing ----------

  // The bracketed expression at the front of the text: what is inside, and what follows it.
  function Bracketed(s: string): Option<(string, string)> {
    var a := Skip(s);
    if a == "" || a[0] != '(' then None
    else
      var n := CloseIn(a[1..], 1);
      if n == |a| - 1 then None else Some((a[1..][..n], Skip(a[n + 2..])))
  }

  lemma BracketedSmaller(s: string)
    requires Bracketed(s).Some?
    ensures var b := Bracketed(s).value;
            Smaller(b.0, s) && |b.0| < |s| && Smaller(b.1, s) && |b.1| < |s|
  {
    hide Weight, CloseIn, Span;
    var a := Skip(s);
    SkipSmaller(s);
    var n := CloseIn(a[1..], 1);
    SliceSmaller(a, 1, 1 + n);
    assert a[1..1 + n] == a[1..][..n];
    SliceSmaller(a, n + 2, |a|);
    assert a[n + 2..|a|] == a[n + 2..];
    SkipSmaller(a[n + 2..]);
  }

  function Combine(left: Option<Node>, op: char, right: Option<Node>): Option<Node> {
    if left.None? || right.None? then None
    else if op == '&' then Some(And(left.value, right.value))
    else Some(Or(left.value, right.value))
  }

  /**
    The node of an expression, or None.  A shorthand is parsed as the expression it stands for, which is longer; but it
    has none of the letters w and u, and every name of a shorthand has one.
  */
  function Parse(expr: string): Option<Node>
    decreases Weight(expr), |expr|, 1
  {
    hide Strip, ScanBase, Bracketed, Connective, Weight;
    StripSmaller(expr);
    var s := Strip(expr);
    var b := ScanBase(s);
    if b.Base? then
      BaseSmaller(s);
      if b.rest == "" then ParseBase(expr, b)
      else if Connective(b.rest, false).Some? then
        ConnectiveSmaller(b.rest, false);
        Combine(ParseBase(expr, b), b.rest[0], Parse(Connective(b.rest, false).value))
      else None
    else if Bracketed(s).Some? then
      BracketedSmaller(s);
      var p := Bracketed(s).value;
      if Connective(p.1, true).Some? then
        ConnectiveSmaller(p.1, true);
        Combine(Parse(p.0), p.1[0], Parse(Connective(p.1, true).value))
      else None
    else None
  }

  function ParseBase(expr: string, b: Base): Option<Node>
    requires b.Base? && Weight(b.field) <= Weight(expr)
    decreases Weight(expr), |expr|, 0
  {
    match GetField(b.field, b.op, b.value)
    case Some(f) => Some(Leaf(f))
    case None =>
      match Expand(b.field, b.op, b.value)
      case None => None
      case Some(text) =>
        ExpandLighter(b.field, b.op, b.value);
        Parse(text)
  }
}
