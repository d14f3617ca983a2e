/**
  Comparisons with numbers, from the text to the records: every operator, and numbers written in base 10, 16 and 8.
*/
module TraceFilterNumbers {
  import opened Options
  import opened Radix
  import opened TraceFilterModel
  import opened TraceFilterGrammar
  import opened TraceFilterResults
  import opened TraceFilterMeaning

  // ---------- numerals ----------

  function DigitText(d: nat, upper: bool): char
    requires d < 16
  {
    if upper then "0123456789ABCDEF"[d] else "0123456789abcdef"[d]
  }

  function Text(n: nat, base: nat, upper: bool): string
    requires 2 <= base <= 16
  {
    if n < base then [DigitText(n, upper)]
    else
      SmallerQuotient(n, base);
      Text(n / base, base, upper) + [DigitText(n % base, upper)]
  }

  lemma SmallerQuotient(n: nat, base: nat)
    requires 2 <= base <= n
    ensures 0 <= n / base < n && n == n / base * base + n % base
  {
    var q := n / base;
    assert n == base * q + n % base;
    assert base * q == q * base >= 2 * q by { Twice(base, q); }
    if q == 0 { assert false; }
  }

  lemma Twice(base: nat, q: nat)
    requires base >= 2
    ensures base * q == q * base >= 2 * q
  {
  }

  lemma DigitIs(d: nat, upper: bool)
    requires d < 16
    ensures var c := DigitText(d, upper);
            && IsHex(c) && DigitValue(c) == d && Is(Hexes, c) && Is(ValueChars, c) && (d < 8 ==> Is(Octals, c))
  {
  }

  // The digits of the text, and its value.
  lemma {:induction false} TextIs(n: nat, base: nat, upper: bool)
    requires 2 <= base <= 16
    ensures var s := Text(n, base, upper);
            && s != "" && (forall i :: 0 <= i < |s| ==> IsHex(s[i])) && All(s, Hexes) && All(s, ValueChars)
            && (base <= 8 ==> All(s, Octals)) && ValueOf(s, base) == n
  {
    hide Is, IsHex, DigitText, DigitValue;
    var s := Text(n, base, upper);
    if n < base {
      DigitIs(n, upper);
      assert s[..0] == "" && s[0] == DigitText(n, upper);
      assert ValueOf("", base) == 0;
    } else {
      SmallerQuotient(n, base);
      TextIs(n / base, base, upper);
      DigitIs(n % base, upper);
      assert s[..|s| - 1] == Text(n / base, base, upper) && s[|s| - 1] == DigitText(n % base, upper);
    }
  }

  // The ways to write a number: in base 10, after 0x in base 16 with letters of either case, and after 0 in base 8.
  ghost predicate Writes(value: string, n: nat) {
    || value == Decimal(n)
    || value == "0x" + Text(n, 16, false)
    || value == "0x" + Text(n, 16, true)
    || value == "0" + Text(n, 8, false)
  }

  // A number is over where the text ends or a comma follows.
  predicate Stops(rest: string) { rest == "" || rest[0] == ',' }

  // A written number is read back.
  lemma WrittenScan(value: string, n: nat, rest: string)
    requires Writes(value, n) && Stops(rest)
    ensures value != "" && All(value, ValueChars) && ScanInt(value + rest) == Number(n, rest)
  {
    hide Decimal, Text, ValueOf, Span;
    if value == Decimal(n) {
      DecimalDigits(n);
      DecimalValueChars(n);
      DecimalBack(n, rest);
    } else if value == "0" + Text(n, 8, false) {
      OctalScan(n, rest);
    } else {
      HexScan(n, false, rest);
      HexScan(n, true, rest);
    }
  }

  lemma WrittenRead(value: string, n: nat)
    requires Writes(value, n)
    ensures value != "" && All(value, ValueChars) && ReadValue(value) == Min(n, MAX_SIGNED)
  {
    hide Writes, ScanInt;
    WrittenScan(value, n, "");
    assert value + "" == value;
  }

  lemma HexScan(n: nat, upper: bool, rest: string)
    requires Stops(rest)
    ensures var value := "0x" + Text(n, 16, upper);
            All(value, ValueChars) && ScanInt(value + rest) == Number(n, rest)
  {
    hide Text, ValueOf, Span;
    var s := Text(n, 16, upper);
    TextIs(n, 16, upper);
    SpanWhole(s, rest, Hexes);
    assert ("0x" + s + rest)[2..] == s + rest && (s + rest)[..|s|] == s && (s + rest)[|s|..] == rest;
  }

  lemma OctalScan(n: nat, rest: string)
    requires Stops(rest)
    ensures var value := "0" + Text(n, 8, false);
            All(value, ValueChars) && ScanInt(value + rest) == Number(n, rest)
  {
    hide Text, Span;
    var s := Text(n, 8, false);
    var value := "0" + s;
    TextIs(n, 8, false);
    SpanWhole(value, rest, Octals);
    assert (value + rest)[..|value|] == value && (value + rest)[|value|..] == rest;
    assert (value + rest)[1] == s[0] && Is(Octals, s[0]);
    LeadingZero(s, 8);
  }

  lemma {:induction false} LeadingZero(s: string, base: nat)
    requires forall i :: 0 <= i < |s| ==> IsHex(s[i])
    ensures (forall i :: 0 <= i < |"0" + s| ==> IsHex(("0" + s)[i])) && ValueOf("0" + s, base) == ValueOf(s, base)
    decreases |s|
  {
    var t := "0" + s;
    assert IsHex('0') && forall i :: 0 < i < |t| ==> t[i] == s[i - 1];
    if s == "" {
      assert t[..0] == "" && t[0] == '0' && ValueOf("", base) == 0 && DigitValue('0') == 0;
    } else {
      LeadingZero(s[..|s| - 1], base);
      assert t[..|t| - 1] == "0" + s[..|s| - 1];
    }
  }

  // ---------- comparisons ----------

  // The number as it is stored for a field.
  function Stored(field: string, n: nat): nat
    requires Width(field).Some?
  {
    Min(n, MAX_SIGNED) % Width(field).value
  }

  // For every field of the records, every number in each of its written forms and every record: the six operators
  // accept what they say, the number being cut to the width of the field.
  lemma NumberFilter(field: string, value: string, n: nat, r: Record)
    requires Width(field).Some? && Writes(value, n)
    ensures var v := Stored(field, n);
            && (Passes(Parse(field + "=" + value), r) <==> r(field) == v)
            && (Passes(Parse(field + "!=" + value), r) <==> r(field) != v)
            && (Passes(Parse(field + ">" + value), r) <==> r(field) > v)
            && (Passes(Parse(field + ">=" + value), r) <==> r(field) >= v)
            && (Passes(Parse(field + "<" + value), r) <==> r(field) < v)
            && (Passes(Parse(field + "<=" + value), r) <==> r(field) <= v)
  {
    hide Parse, Writes, ReadValue, Passes, Width, Stored;
    WrittenRead(value, n);
    OperatorFilter(field, "=", value, n, r);
    OperatorFilter(field, "!=", value, n, r);
    OperatorFilter(field, ">", value, n, r);
    OperatorFilter(field, ">=", value, n, r);
    OperatorFilter(field, "<", value, n, r);
    OperatorFilter(field, "<=", value, n, r);
  }

  lemma OperatorFilter(field: string, op: string, value: string, n: nat, r: Record)
    requires Width(field).Some? && op in OPS && value != "" && All(value, ValueChars)
    requires ReadValue(value) == Min(n, MAX_SIGNED)
    ensures Passes(Parse(field + op + value), r) <==> Compare(r(field), op, Stored(field, n))
  {
    hide Parse, ReadValue, Passes, Width, Compare;
    NamesAreFields(field);
    FilterMeans(Syn.Base(field, op, value), r);
  }

  // ---------- shorthands ----------

  function Comma(a: string, b: string): string { a + ("," + b) }

  // What follows a number and a comma.
  lemma CommaScan(a: string, n: nat, b: string)
    requires Writes(a, n)
    ensures ScanInt(Comma(a, b)) == Number(n, "," + b) && AfterComma("," + b) == Some(b)
    ensures All(b, ValueChars) ==> All(Comma(a, b), ValueChars)
  {
    hide Writes, ScanInt;
    WrittenScan(a, n, "," + b);
  }

  lemma DecimalScan(n: nat, b: string)
    ensures ScanDigits(Comma(Decimal(n), b), Decimals, 10) == Number(n, "," + b)
    ensures ScanDigits(Decimal(n), Decimals, 10) == Number(n, "") && AfterComma("," + b) == Some(b)
    ensures All(Decimal(n), ValueChars) && (All(b, ValueChars) ==> All(Comma(Decimal(n), b), ValueChars))
  {
    hide Decimal, ScanDigits;
    DecimalBack(n, "," + b);
    DecimalBack(n, "");
    assert Decimal(n) + "" == Decimal(n);
    DecimalValueChars(n);
  }

  // The 4-tuple of a shorthand, in the order the addresses and ports are written.
  lemma TupleRead(a: string, b: string, t: Tuple)
    requires Fits(t) && Writes(a, t.sip) && Writes(b, t.dip)
    ensures var value := Comma(a, Comma(b, Comma(Decimal(t.sport), Decimal(t.dport))));
            value != "" && All(value, ValueChars) && ScanTuple(value) == Some(t)
  {
    hide Decimal, Writes, ScanInt, ScanDigits, Comma;
    var ports := Comma(Decimal(t.sport), Decimal(t.dport));
    DecimalScan(t.dport, "");
    DecimalScan(t.sport, Decimal(t.dport));
    CommaScan(b, t.dip, ports);
    CommaScan(a, t.sip, Comma(b, ports));
    SmallRemainder(t.sip, 0x1_0000_0000);
    SmallRemainder(t.dip, 0x1_0000_0000);
    SmallRemainder(t.sport, 0x1_0000);
    SmallRemainder(t.dport, 0x1_0000);
    NotEmpty(a, Comma(b, ports));
  }

  lemma NotEmpty(a: string, b: string)
    ensures Comma(a, b) != ""
  {
  }

  lemma QueueRead(q: (nat, nat, nat))
    requires q.0 < 0x1_0000 && q.1 < 0x100 && q.2 < 0x100
    ensures var value := Comma(Decimal(q.0), Comma(Decimal(q.1), Decimal(q.2)));
            value != "" && All(value, ValueChars) && ScanQueue(value) == Some(q)
  {
    hide Decimal, ScanDigits, Comma;
    DecimalScan(q.2, "");
    DecimalScan(q.1, Decimal(q.2));
    DecimalScan(q.0, Comma(Decimal(q.1), Decimal(q.2)));
    SmallRemainder(q.0, 0x1_0000);
    SmallRemainder(q.1, 0x100);
    SmallRemainder(q.2, 0x100);
    NotEmpty(Decimal(q.0), Comma(Decimal(q.1), Decimal(q.2)));
  }

  // A flow by its text: two addresses, each in any base, and two decimal ports, in this order, accept exactly the
  // records with these addresses and the ports of their protocol; for rflow source and destination change places.
  lemma FlowFilter(a: string, b: string, t: Tuple, r: Record)
    requires Fits(t) && Writes(a, t.sip) && Writes(b, t.dip)
    ensures var value := Comma(a, Comma(b, Comma(Decimal(t.sport), Decimal(t.dport))));
            && (Passes(Parse(Comparison("flow", "=", value)), r) <==>
                && r("sip") == t.sip && r("dip") == t.dip
                && (|| (r("l3Prot") == 17 && r("data.sport") == t.sport && r("data.dport") == t.dport)
                    || (r("l3Prot") in {0xFC, 0xFD} && r("ack.sport") == t.sport && r("ack.dport") == t.dport)
                    || (r("l3Prot") == 0 && r("qp.sport") == t.sport && r("qp.dport") == t.dport)))
            && (Passes(Parse(Comparison("rflow", "=", value)), r) <==>
                && r("sip") == t.dip && r("dip") == t.sip
                && (|| (r("l3Prot") == 17 && r("data.sport") == t.dport && r("data.dport") == t.sport)
                    || (r("l3Prot") in {0xFC, 0xFD} && r("ack.sport") == t.dport && r("ack.dport") == t.sport)
                    || (r("l3Prot") == 0 && r("qp.sport") == t.dport && r("qp.dport") == t.sport)))
  {
    hide Parse, Decimal, Comma, Comparison, ScanTuple, Writes, Accepts;
    TupleRead(a, b, t);
    FlowShorthands(Comma(a, Comma(b, Comma(Decimal(t.sport), Decimal(t.dport)))), r);
  }

  // A queue by its text: node, interface and queue number.
  lemma QueueFilter(q: (nat, nat, nat), r: Record)
    requires q.0 < 0x1_0000 && q.1 < 0x100 && q.2 < 0x100
    ensures var value := Comma(Decimal(q.0), Comma(Decimal(q.1), Decimal(q.2)));
            Passes(Parse(Comparison("queue", "=", value)), r) <==>
            r("node") == q.0 && r("intf") == q.1 && r("qidx") == q.2
  {
    hide Parse, Decimal, Comma, ScanQueue, Passes;
    QueueRead(q);
    var value := Comma(Decimal(q.0), Comma(Decimal(q.1), Decimal(q.2)));
    QueueTokens(value);
    FilterMeans(Syn.Base("queue", "=", value), r);
  }

  lemma QueueTokens(value: string)
    requires value != "" && All(value, ValueChars)
    ensures Tokens("queue", "=", value) && Width("queue") == None
  {
  }
}
