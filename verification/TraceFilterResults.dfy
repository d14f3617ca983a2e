/**
  The parser and the printer agree, and what the shorthands of a flow accept.
*/
module TraceFilterResults {
  import opened Options
  import opened TraceFilterModel
  import opened TraceFilterGrammar

  // ---------- printing ----------

  // The text of a tree, with the bracketing of the printer and the names of the fields.
  function Str(n: Node): string {
    match n
    case Leaf(f) => Comparison(f.name, f.op, Decimal(f.value))
    case And(a, b) => Join(Bracket(Str(a)), '&', Bracket(Str(b)))
    case Or(a, b) => Join(Bracket(Str(a)), '|', Bracket(Str(b)))
  }

  function SynOf(n: Node): Syn {
    match n
    case Leaf(f) => Syn.Base(f.name, f.op, Decimal(f.value))
    case And(a, b) => ParenThen(SynOf(a), '&', Paren(SynOf(b)))
    case Or(a, b) => ParenThen(SynOf(a), '|', Paren(SynOf(b)))
  }

  // A tree of known fields and operators with values that fit.
  predicate Proper(n: Node) {
    match n
    case Leaf(f) => Width(f.name).Some? && f.op in OPS && f.value < Width(f.name).value && f.value <= MAX_SIGNED
    case And(a, b) => Proper(a) && Proper(b)
    case Or(a, b) => Proper(a) && Proper(b)
  }

  // ---------- decimal numbers ----------

  lemma {:induction false} DecimalDigits(n: nat)
    ensures Decimal(n) != "" && All(Decimal(n), Decimals) && (n > 0 ==> Decimal(n)[0] != '0')
  {
    if n >= 10 { DecimalDigits(n / 10); }
  }

  lemma DigitsAreHex(s: string)
    requires All(s, Decimals) || All(s, Octals) || All(s, Hexes)
    ensures forall i :: 0 <= i < |s| ==> IsHex(s[i])
  {
    forall i | 0 <= i < |s|
      ensures IsHex(s[i])
    {
      assert Is(Decimals, s[i]) || Is(Octals, s[i]) || Is(Hexes, s[i]);
    }
  }

  lemma {:induction false} DecimalValue(n: nat)
    ensures (forall i :: 0 <= i < |Decimal(n)| ==> IsHex(Decimal(n)[i])) && ValueOf(Decimal(n), 10) == n
  {
    DecimalDigits(n);
    DigitsAreHex(Decimal(n));
    if n >= 10 {
      DecimalValue(n / 10);
      var s := Decimal(n);
      assert s[..|s| - 1] == Decimal(n / 10) && s[|s| - 1] == Digit(n % 10);
      DigitBack(n % 10);
    } else {
      assert Decimal(n)[..0] == "";
      DigitBack(n);
    }
  }

  lemma DigitBack(d: nat)
    requires d < 10
    ensures IsHex(Digit(d)) && DigitValue(Digit(d)) == d
  {
  }

  // Reading a printed number gives it back.
  lemma DecimalBack(n: nat, rest: string)
    requires rest == "" || rest[0] == ','
    ensures ScanDigits(Decimal(n) + rest, Decimals, 10) == Number(n, rest)
    ensures ScanInt(Decimal(n) + rest) == Number(n, rest)
  {
    assert n == 0 ==> Decimal(n) == "0";
    hide Decimal;
    DecimalDigits(n);
    DecimalValue(n);
    var s := Decimal(n);
    SpanWhole(s, rest, Decimals);
    assert (s + rest)[..|s|] == s && (s + rest)[|s|..] == rest;
    assert Is(Decimals, s[0]);
    if n == 0 {
      SpanWhole(s, rest, Octals);
      assert s[..0] == "" && DigitValue('0') == 0;
      assert ValueOf(s, 8) == 0;
    }
  }

  lemma {:induction false} DecimalValueChars(n: nat)
    ensures All(Decimal(n), ValueChars)
  {
    DecimalDigits(n);
    forall i | 0 <= i < |Decimal(n)|
      ensures Is(ValueChars, Decimal(n)[i])
    {
      assert Is(Decimals, Decimal(n)[i]);
    }
  }

  lemma NamesAreFields(name: string)
    requires Width(name).Some?
    ensures name != "" && All(name, FieldChars)
  {
    if name == "time" {
    } else if Width(name).value == 0x1_0000_0000 {
      LongNames(name);
    } else if Width(name).value == 0x1_0000 {
      WordNames(name);
    } else {
      ByteNames(name);
    }
  }

  lemma LongNames(name: string)
    requires name in {"qlen", "sip", "dip", "data.seq"}
    ensures name != "" && All(name, FieldChars)
  {
  }

  lemma WordNames(name: string)
    requires name in {"node", "size", "data.sport", "data.dport", "ack.sport", "ack.dport", "qp.sport", "qp.dport"}
    ensures name != "" && All(name, FieldChars)
  {
  }

  lemma ByteNames(name: string)
    requires name in {"nodeType", "intf", "qidx", "l3Prot", "event", "ecn", "ack.flags"}
    ensures name != "" && All(name, FieldChars)
  {
  }

  // ---------- parsing what was printed ----------

  lemma {:induction false} StrIsShow(n: Node)
    requires Proper(n)
    ensures WellFormed(SynOf(n)) && Show(SynOf(n)) == Str(n)
  {
    hide Decimal, Comparison, Join, Bracket, Width;
    match n
    case Leaf(f) =>
      NamesAreFields(f.name);
      DecimalDigits(f.value);
      DecimalValueChars(f.value);
    case And(a, b) => StrIsShow(a); StrIsShow(b);
    case Or(a, b) => StrIsShow(a); StrIsShow(b);
  }

  lemma {:induction false} DenotesItself(n: Node)
    requires Proper(n)
    ensures Denote(SynOf(n)) == Some(n)
  {
    hide Atom;
    match n
    case Leaf(f) => LeafDenotes(f);
    case And(a, b) => DenotesItself(a); DenotesItself(b);
    case Or(a, b) => DenotesItself(a); DenotesItself(b);
  }

  lemma LeafDenotes(f: Field)
    requires Proper(Leaf(f))
    ensures Atom(f.name, f.op, Decimal(f.value)) == Some(Leaf(f))
  {
    hide Decimal, Width, Parse, ReadValue, Expand;
    ReadBack(f.value);
    SmallRemainder(f.value, Width(f.name).value);
  }

  lemma ReadBack(n: nat)
    requires n <= MAX_SIGNED
    ensures ReadValue(Decimal(n)) == n
  {
    hide Decimal, ScanInt;
    DecimalBack(n, "");
    assert Decimal(n) + "" == Decimal(n);
  }

  lemma SmallRemainder(n: nat, w: nat)
    requires n < w
    ensures n % w == n
  {
  }

  // Parsing the printed text of a proper tree gives the tree.
  lemma PrintParse(n: Node)
    requires Proper(n)
    ensures Parse(Str(n)) == Some(n)
  {
    hide Parse, Denote, Str, SynOf;
    StrIsShow(n);
    ParseShow(SynOf(n));
    DenotesItself(n);
  }

  lemma ReadFits(name: string, op: string, value: string)
    requires op in OPS && GetField(name, op, value).Some?
    ensures Proper(Leaf(GetField(name, op, value).value))
  {
    hide ScanInt;
    var w := Width(name).value;
    assert w > 0;
  }

  lemma ScannedOp(s: string)
    requires ScanBase(s).Base?
    ensures ScanBase(s).op in OPS
  {
    hide Token, Skip;
    var a := Skip(Token(s, FieldChars).1);
    OpKnown(a);
  }

  lemma OpKnown(s: string)
    ensures ScanOp(s) != "" ==> ScanOp(s) in OPS
  {
    var op := ScanOp(s);
    if |op| == 2 {
      assert op == [s[0], '='];
    } else if |op| == 1 {
      assert op == [s[0]];
    }
  }

  // Whatever the parser builds is proper.
  lemma {:induction false} ParsedProper(s: string)
    requires Parse(s).Some?
    ensures Proper(Parse(s).value)
    decreases Weight(s), |s|
  {
    hide Parse, Strip, ScanBase, Bracketed, Connective, Weight, GetField, Expand;
    ParseStrips(s);
    StripSmaller(s);
    var t := Strip(s);
    var b := ScanBase(t);
    if b.Base? {
      ScannedOp(t);
      BaseSmaller(t);
      AtomProper(s, b.field, b.op, b.value);
      if b.rest != "" {
        ConnectiveSmaller(b.rest, false);
        ParsedProper(Connective(b.rest, false).value);
      }
    } else {
      BracketedSmaller(t);
      var p := Bracketed(t).value;
      ConnectiveSmaller(p.1, true);
      ParsedProper(p.0);
      ParsedProper(Connective(p.1, true).value);
    }
  }

  lemma AtomProper(s: string, field: string, op: string, value: string)
    requires op in OPS && Weight(field) <= Weight(s) && Atom(field, op, value).Some?
    ensures Proper(Atom(field, op, value).value)
    decreases Weight(s), |s|, 0
  {
    hide Parse, Weight, GetField, Expand;
    if GetField(field, op, value).Some? {
      ReadFits(field, op, value);
    } else {
      ExpandLighter(field, op, value);
      ParsedProper(Expand(field, op, value).value);
    }
  }

  // For every text the parser accepts: printing the tree and parsing it again gives the same tree, which accepts
  // the same records.
  lemma Reparse(s: string)
    requires Parse(s).Some?
    ensures Parse(Str(Parse(s).value)) == Parse(s)
  {
    hide Parse, Str;
    ParsedProper(s);
    PrintParse(Parse(s).value);
  }

  // ---------- the text the printer writes ----------

  // A comparison is printed with the offset of its field in brackets instead of the name.
  function Printed(n: Node, offset: string -> nat): string {
    match n
    case Leaf(f) => "[" + Decimal(offset(f.name)) + "]" + OpText(f.op) + Decimal(f.value)
    case And(a, b) => Join(Bracket(Printed(a, offset)), '&', Bracket(Printed(b, offset)))
    case Or(a, b) => Join(Bracket(Printed(a, offset)), '|', Bracket(Printed(b, offset)))
  }

  function OpText(op: string): string { if op in OPS then op else "[Unknown op]" }

  lemma LeafNoBrackets(f: Field, offset: string -> nat)
    ensures var t := Printed(Leaf(f), offset);
            t != "" && t[0] == '[' && forall i :: 0 <= i < |t| ==> t[i] != '(' && t[i] != ')'
  {
    hide Decimal;
    var a, b, op := Decimal(offset(f.name)), Decimal(f.value), OpText(f.op);
    DecimalDigits(offset(f.name));
    DecimalDigits(f.value);
    var t := "[" + a + "]" + op + b;
    forall i | 0 <= i < |t|
      ensures t[i] != '(' && t[i] != ')'
    {
      if 1 <= i <= |a| {
        assert Is(Decimals, a[i - 1]);
      } else if i >= 2 + |a| + |op| {
        assert Is(Decimals, b[i - 2 - |a| - |op|]);
      }
    }
  }

  // Looking for a closing bracket passes over the text.
  ghost predicate Balanced(t: string) {
    forall post: string, c: nat :: c > 0 ==> CloseIn(t + post, c) == |t| + CloseIn(post, c)
  }

  lemma BracketBalanced(t: string)
    requires Balanced(t)
    ensures Balanced(Bracket(t))
  {
    hide CloseIn;
    forall post: string, c: nat | c > 0
      ensures CloseIn(Bracket(t) + post, c) == |Bracket(t)| + CloseIn(post, c)
    {
      CloseOpens(t + (")" + post), c);
      CloseOpens(post, c + 1);
      assert Bracket(t) + post == "(" + (t + (")" + post));
      assert CloseIn(t + (")" + post), c + 1) == |t| + CloseIn(")" + post, c + 1);
    }
  }

  lemma JoinBalanced(a: string, k: char, b: string)
    requires Balanced(a) && k in {'&', '|'} && Balanced(b)
    ensures Balanced(Join(a, k, b))
  {
    hide CloseIn, Join;
    forall post: string, c: nat | c > 0
      ensures CloseIn(Join(a, k, b) + post, c) == |Join(a, k, b)| + CloseIn(post, c)
    {
      JoinAssociates(a, k, b, post);
      CloseOver([k], b + post, c);
      assert CloseIn(a + ([k] + (b + post)), c) == |a| + CloseIn([k] + (b + post), c);
      assert CloseIn(b + post, c) == |b| + CloseIn(post, c);
    }
  }

  lemma {:induction false} PrintedBalanced(n: Node, offset: string -> nat)
    ensures Balanced(Printed(n, offset))
  {
    hide Balanced, Join, Bracket;
    match n
    case Leaf(f) => LeafBalanced(f, offset);
    case And(a, b) =>
      PrintedBalanced(a, offset);
      PrintedBalanced(b, offset);
      BracketBalanced(Printed(a, offset));
      BracketBalanced(Printed(b, offset));
      JoinBalanced(Bracket(Printed(a, offset)), '&', Bracket(Printed(b, offset)));
    case Or(a, b) =>
      PrintedBalanced(a, offset);
      PrintedBalanced(b, offset);
      BracketBalanced(Printed(a, offset));
      BracketBalanced(Printed(b, offset));
      JoinBalanced(Bracket(Printed(a, offset)), '|', Bracket(Printed(b, offset)));
  }

  lemma LeafBalanced(f: Field, offset: string -> nat)
    ensures Balanced(Printed(Leaf(f), offset))
  {
    hide Printed, CloseIn;
    var t := Printed(Leaf(f), offset);
    LeafNoBrackets(f, offset);
    forall post: string, c: nat | c > 0
      ensures CloseIn(t + post, c) == |t| + CloseIn(post, c)
    {
      CloseOver(t, post, c);
    }
  }

  lemma PairRefused(a: string, k: char, b: string)
    requires Balanced(a) && k in {'&', '|'} && Parse(a) == None
    ensures Parse(Join(Bracket(a), k, Bracket(b))) == None
  {
    hide Parse, CloseIn, Bracketed, Inside, ScanBase, Bracket, Strip, Connective, Combine;
    var after := [k] + Bracket(b);
    var s := Join(Bracket(a), k, Bracket(b));
    assert CloseIn(a + (")" + after), 1) == |a| + CloseIn(")" + after, 1);
    CloseOpens(after, 1);
    BracketedWhole(a, after);
    StripStep(s);
    ParseStrips(s);
    NoneCombines(k, if Connective(after, true).Some? then Parse(Connective(after, true).value) else None);
  }

  lemma NoneCombines(k: char, right: Option<Node>)
    ensures Combine(None, k, right) == None
  {
  }

  lemma LeafRefused(s: string)
    requires s != "" && s[0] == '['
    ensures Parse(s) == None
  {
    hide Parse, Strip, ScanBase, Skip, Connective, Combine, CloseIn, Inside;
    StripsNothing(s);
    BracketNoBase(s);
    ParseStrips(s);
  }

  // The text that the printer of the filter writes is never read back: the parser refuses it for every tree.
  lemma {:induction false} PrintedRefused(n: Node, offset: string -> nat)
    ensures Parse(Printed(n, offset)) == None
  {
    hide Parse, Balanced, Join, Bracket;
    match n
    case Leaf(f) =>
      LeafNoBrackets(f, offset);
      LeafRefused(Printed(n, offset));
    case And(a, b) =>
      PrintedBalanced(a, offset);
      PrintedRefused(a, offset);
      PairRefused(Printed(a, offset), '&', Printed(b, offset));
    case Or(a, b) =>
      PrintedBalanced(a, offset);
      PrintedRefused(a, offset);
      PairRefused(Printed(a, offset), '|', Printed(b, offset));
  }

  // ---------- flows ----------

  predicate PortsMatch(sport: string, dport: string, t: Tuple, r: Record) { r(sport) == t.sport && r(dport) == t.dport }

  // A record of the flow: its addresses, and the ports of its protocol.
  predicate OfFlow(t: Tuple, r: Record) {
    && r("sip") == t.sip && r("dip") == t.dip
    && (|| (r("l3Prot") == 17 && PortsMatch("data.sport", "data.dport", t, r))
        || (r("l3Prot") in {0xFC, 0xFD} && PortsMatch("ack.sport", "ack.dport", t, r))
        || (r("l3Prot") == 0 && PortsMatch("qp.sport", "qp.dport", t, r)))
  }

  predicate Fits(t: Tuple) {
    t.sip < 0x1_0000_0000 && t.dip < 0x1_0000_0000 && t.sport < 0x1_0000 && t.dport < 0x1_0000
  }

  function EqualsSyn(field: string, value: string): Syn { Syn.Base(field, "=", value) }

  function PortsSyn(sport: string, dport: string, t: Tuple): Syn {
    Then(sport, "=", Decimal(t.sport), '&', EqualsSyn(dport, Decimal(t.dport)))
  }

  function ProtocolSyn(t: Tuple): Syn {
    var data := Then("l3Prot", "=", "17", '&', PortsSyn("data.sport", "data.dport", t));
    var acks := Then("l3Prot", "=", "0xFC", '|', EqualsSyn("l3Prot", "0xFD"));
    var ack := ParenThen(acks, '&', PortsSyn("ack.sport", "ack.dport", t));
    var qp := Then("l3Prot", "=", "0x0", '&', PortsSyn("qp.sport", "qp.dport", t));
    ParenThen(data, '|', ParenThen(ack, '|', Paren(qp)))
  }

  function FlowSyn(t: Tuple): Syn {
    Then("sip", "=", Decimal(t.sip), '&', Then("dip", "=", Decimal(t.dip), '&', Paren(ProtocolSyn(t))))
  }

  lemma NumberTokens(field: string, n: nat)
    requires Width(field).Some?
    ensures Tokens(field, "=", Decimal(n))
  {
    hide Decimal, Width;
    NamesAreFields(field);
    DecimalDigits(n);
    DecimalValueChars(n);
  }

  lemma PortsText(sport: string, dport: string, t: Tuple)
    requires Width(sport).Some? && Width(dport).Some?
    ensures WellFormed(PortsSyn(sport, dport, t)) && Show(PortsSyn(sport, dport, t)) == Ports(sport, dport, t)
  {
    hide Decimal, Width, Tokens, Join;
    NumberTokens(sport, t.sport);
    NumberTokens(dport, t.dport);
  }

  lemma ThenText(field: string, op: string, value: string, c: char, rest: Syn)
    ensures Show(Then(field, op, value, c, rest)) == Join(Comparison(field, op, value), c, Show(rest))
    ensures WellFormed(Then(field, op, value, c, rest)) <==>
            Tokens(field, op, value) && c in {'&', '|'} && WellFormed(rest)
  {
  }

  lemma ParenThenText(x: Syn, c: char, rest: Syn)
    ensures Show(ParenThen(x, c, rest)) == Join(Bracket(Show(x)), c, Show(rest))
    ensures Show(Paren(rest)) == Bracket(Show(rest)) && (WellFormed(Paren(rest)) <==> WellFormed(rest))
    ensures WellFormed(ParenThen(x, c, rest)) <==> WellFormed(x) && c in {'&', '|'} && WellFormed(rest)
  {
  }

  lemma EqualsText(field: string, value: string)
    ensures Show(EqualsSyn(field, value)) == Equals(field, value) == Comparison(field, "=", value)
    ensures WellFormed(EqualsSyn(field, value)) <==> Tokens(field, "=", value)
  {
  }

  lemma ProtocolTokens()
    ensures Tokens("l3Prot", "=", "17") && Tokens("l3Prot", "=", "0xFC")
    ensures Tokens("l3Prot", "=", "0xFD") && Tokens("l3Prot", "=", "0x0")
  {
    ByteNames("l3Prot");
  }

  lemma ProtocolTextIs(t: Tuple)
    ensures WellFormed(ProtocolSyn(t)) && Show(ProtocolSyn(t)) == ProtocolText(t)
  {
    PortsText("data.sport", "data.dport", t);
    PortsText("ack.sport", "ack.dport", t);
    PortsText("qp.sport", "qp.dport", t);
    ProtocolTokens();
    hide Ports, PortsSyn, EqualsSyn, Equals, Comparison, Join, Bracket, Tokens, Show, WellFormed;
    var data := Then("l3Prot", "=", "17", '&', PortsSyn("data.sport", "data.dport", t));
    var acks := Then("l3Prot", "=", "0xFC", '|', EqualsSyn("l3Prot", "0xFD"));
    var ack := ParenThen(acks, '&', PortsSyn("ack.sport", "ack.dport", t));
    var qp := Then("l3Prot", "=", "0x0", '&', PortsSyn("qp.sport", "qp.dport", t));
    EqualsText("l3Prot", "17");
    EqualsText("l3Prot", "0xFC");
    EqualsText("l3Prot", "0xFD");
    EqualsText("l3Prot", "0x0");
    ThenText("l3Prot", "=", "17", '&', PortsSyn("data.sport", "data.dport", t));
    ThenText("l3Prot", "=", "0xFC", '|', EqualsSyn("l3Prot", "0xFD"));
    ParenThenText(acks, '&', PortsSyn("ack.sport", "ack.dport", t));
    ThenText("l3Prot", "=", "0x0", '&', PortsSyn("qp.sport", "qp.dport", t));
    ParenThenText(qp, '|', qp);
    ParenThenText(ack, '|', Paren(qp));
    ParenThenText(data, '|', ParenThen(ack, '|', Paren(qp)));
  }

  lemma FlowTextIs(t: Tuple)
    ensures WellFormed(FlowSyn(t)) && Show(FlowSyn(t)) == FlowText(t)
  {
    hide Decimal, ProtocolSyn, ProtocolText, Join, Bracket, Tokens, Show, WellFormed, Equals, Comparison;
    var p := ProtocolSyn(t);
    ProtocolTextIs(t);
    NumberTokens("sip", t.sip);
    NumberTokens("dip", t.dip);
    EqualsText("sip", Decimal(t.sip));
    EqualsText("dip", Decimal(t.dip));
    ParenThenText(p, '|', p);
    ThenText("dip", "=", Decimal(t.dip), '&', Paren(p));
    ThenText("sip", "=", Decimal(t.sip), '&', Then("dip", "=", Decimal(t.dip), '&', Paren(p)));
  }

  // ---------- what a flow accepts ----------

  // One comparison of a number that fits.
  lemma NumberAtom(field: string, n: nat)
    requires Width(field).Some? && n < Width(field).value && n <= MAX_SIGNED
    ensures Atom(field, "=", Decimal(n)) == Some(Leaf(Field(field, "=", n)))
  {
    hide Decimal, Width;
    LeafDenotes(Field(field, "=", n));
  }

  lemma ProtocolAtoms()
    ensures Atom("l3Prot", "=", "17") == Some(Leaf(Field("l3Prot", "=", 17)))
    ensures Atom("l3Prot", "=", "0xFC") == Some(Leaf(Field("l3Prot", "=", 0xFC)))
    ensures Atom("l3Prot", "=", "0xFD") == Some(Leaf(Field("l3Prot", "=", 0xFD)))
    ensures Atom("l3Prot", "=", "0x0") == Some(Leaf(Field("l3Prot", "=", 0)))
  {
    hide ReadValue, Expand;
    ReadProtocols();
    assert Width("l3Prot") == Some(0x100);
  }

  lemma ReadProtocols()
    ensures ReadValue("17") == 17 && ReadValue("0xFC") == 0xFC && ReadValue("0xFD") == 0xFD && ReadValue("0x0") == 0
  {
    hide ReadValue;
    assert "17" == Decimal(17) by { assert Decimal(1) == "1"; }
    ReadBack(17);
    assert "0x" + "FC" == "0xFC" && "0x" + "FD" == "0xFD" && "0x" + "0" == "0x0";
    ReadTwo("FC");
    ReadTwo("FD");
    ReadOne("0");
  }

  lemma ReadOne(s: string)
    requires |s| == 1 && IsHex(s[0])
    ensures ReadValue("0x" + s) == DigitValue(s[0]) && ValueOf(s, 16) == DigitValue(s[0])
  {
    assert ("0x" + s)[2..] == s && s[..0] == "" && s[..1] == s && s[1..] == "";
    assert ValueOf("", 16) == 0;
    assert Span(s, Hexes) == 1;
  }

  lemma ReadTwo(s: string)
    requires |s| == 2 && IsHex(s[0]) && IsHex(s[1])
    ensures ReadValue("0x" + s) == DigitValue(s[0]) * 16 + DigitValue(s[1])
  {
    assert DigitValue(s[0]) < 16 && DigitValue(s[1]) < 16;
    hide DigitValue;
    ReadOne(s[..1]);
    SpanWhole(s, "", Hexes);
    assert ("0x" + s)[2..] == s && s + "" == s && s[..2] == s;
    assert ValueOf(s, 16) == DigitValue(s[0]) * 16 + DigitValue(s[1]);
  }

  lemma DenoteThen(field: string, op: string, value: string, c: char, rest: Syn)
    ensures Denote(Then(field, op, value, c, rest)) == Combine(Atom(field, op, value), c, Denote(rest))
    ensures Denote(EqualsSyn(field, value)) == Atom(field, "=", value)
  {
  }

  lemma DenoteParenThen(x: Syn, c: char, rest: Syn)
    ensures Denote(ParenThen(x, c, rest)) == Combine(Denote(x), c, Denote(rest)) && Denote(Paren(x)) == Denote(x)
  {
  }

  lemma CombineAccepts(a: Option<Node>, c: char, b: Option<Node>, r: Record)
    requires a.Some? && b.Some?
    ensures var d := Combine(a, c, b);
            d.Some? && (Accepts(d.value, r) <==>
                        if c == '&' then Accepts(a.value, r) && Accepts(b.value, r)
                        else Accepts(a.value, r) || Accepts(b.value, r))
  {
  }

  lemma EqualsAccepts(field: string, n: nat, r: Record)
    ensures Accepts(Leaf(Field(field, "=", n)), r) <==> r(field) == n
  {
  }

  lemma PortsAccept(sport: string, dport: string, t: Tuple, r: Record)
    requires Width(sport) == Some(0x1_0000) && Width(dport) == Some(0x1_0000) && Fits(t)
    ensures var d := Denote(PortsSyn(sport, dport, t)); d.Some? && (Accepts(d.value, r) <==> PortsMatch(sport, dport, t, r))
  {
    hide Decimal, Width, Atom, Denote, Accepts, Combine, EqualsSyn;
    var a, b := Atom(sport, "=", Decimal(t.sport)), Atom(dport, "=", Decimal(t.dport));
    NumberAtom(sport, t.sport);
    NumberAtom(dport, t.dport);
    DenoteThen(sport, "=", Decimal(t.sport), '&', EqualsSyn(dport, Decimal(t.dport)));
    DenoteThen(dport, "=", Decimal(t.dport), '&', EqualsSyn(dport, Decimal(t.dport)));
    CombineAccepts(a, '&', b, r);
    EqualsAccepts(sport, t.sport, r);
    EqualsAccepts(dport, t.dport, r);
  }

  // A protocol number, in base 16 or 10, and the ports.
  lemma WithPorts(value: string, n: nat, ports: Syn, matching: bool, r: Record)
    requires Atom("l3Prot", "=", value) == Some(Leaf(Field("l3Prot", "=", n)))
    requires Denote(ports).Some? && (Accepts(Denote(ports).value, r) <==> matching)
    ensures var d := Denote(Then("l3Prot", "=", value, '&', ports));
            d.Some? && (Accepts(d.value, r) <==> r("l3Prot") == n && matching)
  {
    hide Atom, Denote, Accepts, Combine;
    DenoteThen("l3Prot", "=", value, '&', ports);
    CombineAccepts(Atom("l3Prot", "=", value), '&', Denote(ports), r);
    EqualsAccepts("l3Prot", n, r);
  }

  lemma AckAccepts(t: Tuple, r: Record)
    requires Fits(t)
    ensures var acks := Then("l3Prot", "=", "0xFC", '|', EqualsSyn("l3Prot", "0xFD"));
            var d := Denote(ParenThen(acks, '&', PortsSyn("ack.sport", "ack.dport", t)));
            d.Some? && (Accepts(d.value, r) <==> r("l3Prot") in {0xFC, 0xFD} && PortsMatch("ack.sport", "ack.dport", t, r))
  {
    PortsAccept("ack.sport", "ack.dport", t, r);
    ProtocolAtoms();
    hide Atom, Denote, Accepts, Combine, PortsMatch, PortsSyn, EqualsSyn;
    var acks := Then("l3Prot", "=", "0xFC", '|', EqualsSyn("l3Prot", "0xFD"));
    var ports := PortsSyn("ack.sport", "ack.dport", t);
    DenoteThen("l3Prot", "=", "0xFC", '|', EqualsSyn("l3Prot", "0xFD"));
    DenoteThen("l3Prot", "=", "0xFD", '|', EqualsSyn("l3Prot", "0xFD"));
    CombineAccepts(Atom("l3Prot", "=", "0xFC"), '|', Atom("l3Prot", "=", "0xFD"), r);
    EqualsAccepts("l3Prot", 0xFC, r);
    EqualsAccepts("l3Prot", 0xFD, r);
    DenoteParenThen(acks, '&', ports);
    CombineAccepts(Denote(acks), '&', Denote(ports), r);
  }

  lemma ProtocolAccepts(t: Tuple, r: Record)
    requires Fits(t)
    ensures var d := Denote(ProtocolSyn(t));
            d.Some? && (Accepts(d.value, r) <==>
              || (r("l3Prot") == 17 && PortsMatch("data.sport", "data.dport", t, r))
              || (r("l3Prot") in {0xFC, 0xFD} && PortsMatch("ack.sport", "ack.dport", t, r))
              || (r("l3Prot") == 0 && PortsMatch("qp.sport", "qp.dport", t, r)))
  {
    PortsAccept("data.sport", "data.dport", t, r);
    PortsAccept("qp.sport", "qp.dport", t, r);
    ProtocolAtoms();
    AckAccepts(t, r);
    hide Atom, Denote, Accepts, Combine, PortsMatch, PortsSyn;
    var data := Then("l3Prot", "=", "17", '&', PortsSyn("data.sport", "data.dport", t));
    var acks := Then("l3Prot", "=", "0xFC", '|', EqualsSyn("l3Prot", "0xFD"));
    var ack := ParenThen(acks, '&', PortsSyn("ack.sport", "ack.dport", t));
    var qp := Then("l3Prot", "=", "0x0", '&', PortsSyn("qp.sport", "qp.dport", t));
    WithPorts("17", 17, PortsSyn("data.sport", "data.dport", t), PortsMatch("data.sport", "data.dport", t, r), r);
    WithPorts("0x0", 0, PortsSyn("qp.sport", "qp.dport", t), PortsMatch("qp.sport", "qp.dport", t, r), r);
    DenoteParenThen(qp, '|', qp);
    DenoteParenThen(ack, '|', Paren(qp));
    DenoteParenThen(data, '|', ParenThen(ack, '|', Paren(qp)));
    CombineAccepts(Denote(ack), '|', Denote(qp), r);
    CombineAccepts(Denote(data), '|', Combine(Denote(ack), '|', Denote(qp)), r);
  }

  // The expression a flow stands for accepts exactly the records of the flow.
  lemma FlowAccepts(t: Tuple, r: Record)
    requires Fits(t)
    ensures var d := Parse(FlowText(t)); d.Some? && (Accepts(d.value, r) <==> OfFlow(t, r))
  {
    NumberAtom("sip", t.sip);
    NumberAtom("dip", t.dip);
    hide Decimal, ProtocolSyn, Atom, Parse, Show, PortsMatch, Denote, Accepts, Combine, FlowText;
    var p := Paren(ProtocolSyn(t));
    var dip := Then("dip", "=", Decimal(t.dip), '&', p);
    FlowTextIs(t);
    ParseShow(FlowSyn(t));
    ProtocolAccepts(t, r);
    DenoteParenThen(ProtocolSyn(t), '&', p);
    DenoteThen("dip", "=", Decimal(t.dip), '&', p);
    DenoteThen("sip", "=", Decimal(t.sip), '&', dip);
    CombineAccepts(Atom("dip", "=", Decimal(t.dip)), '&', Denote(p), r);
    CombineAccepts(Atom("sip", "=", Decimal(t.sip)), '&', Denote(dip), r);
    EqualsAccepts("sip", t.sip, r);
    EqualsAccepts("dip", t.dip, r);
  }

  lemma TupleFits(value: string)
    requires ScanTuple(value).Some?
    ensures Fits(ScanTuple(value).value)
  {
    hide ScanInt, ScanAfterComma;
  }

  lemma ShorthandTokens(name: string, value: string)
    requires name in {"flow", "biflow", "rflow"} && value != "" && All(value, ValueChars)
    ensures Tokens(name, "=", value) && Width(name) == None
  {
  }

  // The three shorthands of a flow, for every value text: they are parsed when the text holds a 4-tuple; then flow
  // accepts the records of the tuple, rflow those of the reversed tuple, and biflow exactly the union of the two.
  lemma FlowShorthands(value: string, r: Record)
    requires value != "" && All(value, ValueChars)
    ensures var flow := Parse(Comparison("flow", "=", value));
            var rflow := Parse(Comparison("rflow", "=", value));
            var biflow := Parse(Comparison("biflow", "=", value));
            && (flow.Some? <==> ScanTuple(value).Some?) && (rflow.Some? <==> flow.Some?) && (biflow.Some? <==> flow.Some?)
            && (flow.Some? ==>
                  var t := ScanTuple(value).value;
                  && (Accepts(flow.value, r) <==> OfFlow(t, r))
                  && (Accepts(rflow.value, r) <==> OfFlow(t.Reversed(), r))
                  && (Accepts(biflow.value, r) <==> Accepts(flow.value, r) || Accepts(rflow.value, r)))
  {
    hide Parse, Comparison, OfFlow, ScanTuple, FlowText, Width, Tokens;
    ShorthandTokens("flow", value);
    ShorthandTokens("rflow", value);
    ShorthandTokens("biflow", value);
    ParseComparison("flow", "=", value);
    ParseComparison("rflow", "=", value);
    ParseComparison("biflow", "=", value);
    if ScanTuple(value).Some? {
      var t := ScanTuple(value).value;
      TupleFits(value);
      FlowAccepts(t, r);
      FlowAccepts(t.Reversed(), r);
      BiflowParses(t);
    }
  }

  lemma BiflowParses(t: Tuple)
    ensures Parse(Join(Bracket(FlowText(t)), '|', Bracket(FlowText(t.Reversed())))) ==
            Combine(Parse(FlowText(t)), '|', Parse(FlowText(t.Reversed())))
  {
    hide Parse, FlowText, FlowSyn, Join, Bracket, Show, WellFormed, Plain;
    var x, y := FlowSyn(t), FlowSyn(t.Reversed());
    FlowTextIs(t);
    FlowTextIs(t.Reversed());
    ParenThenText(y, '|', y);
    ShowPlain(Paren(y));
    ParseParenThen(x, '|', Show(Paren(y)));
    ParseBracket(y);
  }
}
