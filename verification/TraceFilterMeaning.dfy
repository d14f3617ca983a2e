/**
  What a filter means: the records that an expression accepts, read off its text without the parser.
*/
module TraceFilterMeaning {
  import opened Options
  import opened TraceFilterModel
  import opened TraceFilterGrammar
  import opened TraceFilterResults

  // A comparison that has a meaning: of a field of the records, or a shorthand with the values it needs.
  predicate Known(field: string, op: string, value: string) {
    || Width(field).Some?
    || (field in {"flow", "biflow", "rflow"} && op == "=" && ScanTuple(value).Some?)
    || (field == "queue" && op == "=" && ScanQueue(value).Some?)
  }

  predicate OfQueue(q: (nat, nat, nat), r: Record) { r("node") == q.0 && r("intf") == q.1 && r("qidx") == q.2 }

  // A number is cut to the width of its field.
  predicate Fulfils(field: string, op: string, value: string, r: Record)
    requires Known(field, op, value)
  {
    if Width(field).Some? then Compare(r(field), op, ReadValue(value) % Width(field).value)
    else if field == "queue" then OfQueue(ScanQueue(value).value, r)
    else
      var t := ScanTuple(value).value;
      || (field != "rflow" && OfFlow(t, r))
      || (field != "flow" && OfFlow(t.Reversed(), r))
  }

  predicate AllKnown(x: Syn) {
    match x
    case Base(field, op, value) => Known(field, op, value)
    case Then(field, op, value, _, rest) => Known(field, op, value) && AllKnown(rest)
    case Paren(inner) => AllKnown(inner)
    case ParenThen(inner, _, rest) => AllKnown(inner) && AllKnown(rest)
  }

  predicate Connect(a: bool, connective: char, b: bool) { if connective == '&' then a && b else a || b }

  // The records of an expression.
  predicate Matches(x: Syn, r: Record)
    requires AllKnown(x)
  {
    match x
    case Base(field, op, value) => Fulfils(field, op, value, r)
    case Then(field, op, value, c, rest) => Connect(Fulfils(field, op, value, r), c, Matches(rest, r))
    case Paren(inner) => Matches(inner, r)
    case ParenThen(inner, c, rest) => Connect(Matches(inner, r), c, Matches(rest, r))
  }

  // ---------- one comparison ----------

  function QueueSyn(q: (nat, nat, nat)): Syn {
    Then("node", "=", Decimal(q.0), '&', Then("intf", "=", Decimal(q.1), '&', EqualsSyn("qidx", Decimal(q.2))))
  }

  lemma QueueTextIs(q: (nat, nat, nat))
    ensures WellFormed(QueueSyn(q)) && Show(QueueSyn(q)) == QueueText(q)
  {
    hide Decimal, Join, Tokens, Show, WellFormed, Equals, Comparison;
    NumberTokens("node", q.0);
    NumberTokens("intf", q.1);
    NumberTokens("qidx", q.2);
    EqualsText("node", Decimal(q.0));
    EqualsText("intf", Decimal(q.1));
    EqualsText("qidx", Decimal(q.2));
    ThenText("intf", "=", Decimal(q.1), '&', EqualsSyn("qidx", Decimal(q.2)));
    ThenText("node", "=", Decimal(q.0), '&', Then("intf", "=", Decimal(q.1), '&', EqualsSyn("qidx", Decimal(q.2))));
  }

  // The expression a queue stands for accepts exactly the records of the queue.
  lemma QueueAccepts(q: (nat, nat, nat), r: Record)
    requires q.0 < 0x1_0000 && q.1 < 0x100 && q.2 < 0x100
    ensures var d := Parse(QueueText(q)); d.Some? && (Accepts(d.value, r) <==> OfQueue(q, r))
  {
    NumberAtom("node", q.0);
    NumberAtom("intf", q.1);
    NumberAtom("qidx", q.2);
    hide Decimal, Atom, Parse, Show, WellFormed, Denote, Accepts, Combine, QueueText;
    var rest := Then("intf", "=", Decimal(q.1), '&', EqualsSyn("qidx", Decimal(q.2)));
    QueueTextIs(q);
    ParseShow(QueueSyn(q));
    DenoteThen("node", "=", Decimal(q.0), '&', rest);
    DenoteThen("intf", "=", Decimal(q.1), '&', EqualsSyn("qidx", Decimal(q.2)));
    DenoteThen("qidx", "=", Decimal(q.2), '&', EqualsSyn("qidx", Decimal(q.2)));
    CombineAccepts(Atom("intf", "=", Decimal(q.1)), '&', Atom("qidx", "=", Decimal(q.2)), r);
    CombineAccepts(Atom("node", "=", Decimal(q.0)), '&', Denote(rest), r);
    EqualsAccepts("node", q.0, r);
    EqualsAccepts("intf", q.1, r);
    EqualsAccepts("qidx", q.2, r);
  }

  lemma QueueFits(value: string)
    requires ScanQueue(value).Some?
    ensures var q := ScanQueue(value).value; q.0 < 0x1_0000 && q.1 < 0x100 && q.2 < 0x100
  {
    hide ScanDigits, ScanAfterComma;
  }

  ghost predicate Means(d: Option<Node>, known: bool, matching: bool, r: Record) {
    (d.Some? <==> known) && (known ==> (Accepts(d.value, r) <==> matching))
  }

  lemma FlowMeans(name: string, value: string, r: Record)
    requires name in {"flow", "biflow", "rflow"} && ScanTuple(value).Some?
    ensures Expand(name, "=", value).Some? && Width(name) == None
    ensures Means(Parse(Expand(name, "=", value).value), true, Fulfils(name, "=", value, r), r)
  {
    hide Parse, OfFlow, ScanTuple, FlowText;
    var t := ScanTuple(value).value;
    TupleFits(value);
    FlowAccepts(t, r);
    FlowAccepts(t.Reversed(), r);
    BiflowParses(t);
  }

  lemma AtomMeans(field: string, op: string, value: string, r: Record)
    ensures Means(Atom(field, op, value), Known(field, op, value),
                  Known(field, op, value) && Fulfils(field, op, value, r), r)
  {
    hide Parse, ScanTuple, ScanQueue, FlowText, QueueText, OfFlow, OfQueue, ReadValue;
    if Width(field).None? && Known(field, op, value) {
      if field == "queue" {
        QueueFits(value);
        QueueAccepts(ScanQueue(value).value, r);
      } else {
        FlowMeans(field, value, r);
      }
    }
  }

  lemma CombineMeans(a: Option<Node>, c: char, b: Option<Node>, knownA: bool, knownB: bool, matchA: bool, matchB: bool,
                     matching: bool, r: Record)
    requires Means(a, knownA, matchA, r) && Means(b, knownB, matchB, r)
    requires knownA && knownB ==> matching == Connect(matchA, c, matchB)
    ensures Means(Combine(a, c, b), knownA && knownB, matching, r)
  {
  }

  lemma {:induction false} DenoteMeans(x: Syn, r: Record)
    ensures Means(Denote(x), AllKnown(x), AllKnown(x) && Matches(x, r), r)
  {
    hide Atom, Known, Fulfils, Combine, Means, Connect;
    match x
    case Base(field, op, value) => AtomMeans(field, op, value, r);
    case Then(field, op, value, c, rest) =>
      AtomMeans(field, op, value, r);
      DenoteMeans(rest, r);
      CombineMeans(Atom(field, op, value), c, Denote(rest), Known(field, op, value), AllKnown(rest),
                   Known(field, op, value) && Fulfils(field, op, value, r), AllKnown(rest) && Matches(rest, r),
                   AllKnown(x) && Matches(x, r), r);
    case Paren(inner) => DenoteMeans(inner, r);
    case ParenThen(inner, c, rest) =>
      DenoteMeans(inner, r);
      DenoteMeans(rest, r);
      CombineMeans(Denote(inner), c, Denote(rest), AllKnown(inner), AllKnown(rest),
                   AllKnown(inner) && Matches(inner, r), AllKnown(rest) && Matches(rest, r),
                   AllKnown(x) && Matches(x, r), r);
  }

  // For every expression of the grammar: it is parsed when all its comparisons are known, and then the filter passes
  // exactly the records that match it; when one is not known, the filter passes every record.
  lemma FilterMeans(x: Syn, r: Record)
    requires WellFormed(x)
    ensures Parse(Show(x)).Some? <==> AllKnown(x)
    ensures Passes(Parse(Show(x)), r) <==> (AllKnown(x) ==> Matches(x, r))
  {
    hide Parse, Show, Denote, AllKnown, Matches, Accepts, WellFormed;
    ParseShow(x);
    DenoteMeans(x, r);
  }
}
