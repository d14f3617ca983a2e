/**
  The grammar of filter expressions, and that parsing the text of an expression gives its meaning.
*/
module TraceFilterGrammar {
  import opened Options
  import opened TraceFilterModel

  // ---------- the grammar ----------

  /**
    The expressions the parser accepts: a comparison or a bracketed expression, alone or followed by a connective
    and the rest.  Connectives have no precedence and group to the right.
  */
  datatype Syn = Base(field: string, op: string, value: string)
               | Then(field: string, op: string, value: string, connective: char, rest: Syn)
               | Paren(inner: Syn)
               | ParenThen(inner: Syn, connective: char, rest: Syn)

  const OPS := {"=", ">", ">=", "<", "<=", "!="}

  predicate All(s: string, k: Kind) { forall i :: 0 <= i < |s| ==> Is(k, s[i]) }

  predicate Tokens(field: string, op: string, value: string) {
    field != "" && All(field, FieldChars) && op in OPS && value != "" && All(value, ValueChars)
  }

  predicate WellFormed(x: Syn) {
    match x
    case Base(field, op, value) => Tokens(field, op, value)
    case Then(field, op, value, c, rest) => Tokens(field, op, value) && c in {'&', '|'} && WellFormed(rest)
    case Paren(inner) => WellFormed(inner)
    case ParenThen(inner, c, rest) => WellFormed(inner) && c in {'&', '|'} && WellFormed(rest)
  }

  function Comparison(field: string, op: string, value: string): string { field + op + value }

  function Show(x: Syn): string {
    match x
    case Base(field, op, value) => Comparison(field, op, value)
    case Then(field, op, value, c, rest) => Join(Comparison(field, op, value), c, Show(rest))
    case Paren(inner) => Bracket(Show(inner))
    case ParenThen(inner, c, rest) => Join(Bracket(Show(inner)), c, Show(rest))
  }

  function Atom(field: string, op: string, value: string): Option<Node> {
    match GetField(field, op, value)
    case Some(f) => Some(Leaf(f))
    case None =>
      match Expand(field, op, value)
      case None => None
      case Some(text) => Parse(text)
  }

  function Denote(x: Syn): Option<Node> {
    match x
    case Base(field, op, value) => Atom(field, op, value)
    case Then(field, op, value, c, rest) => Combine(Atom(field, op, value), c, Denote(rest))
    case Paren(inner) => Denote(inner)
    case ParenThen(inner, c, rest) => Combine(Denote(inner), c, Denote(rest))
  }

  // ---------- scanning what was shown ----------

  // No spaces, so also no line ends.
  predicate Plain(s: string) { forall i :: 0 <= i < |s| ==> !Is(Spaces, s[i]) }

  lemma {:induction false} ShowPlain(x: Syn)
    requires WellFormed(x)
    ensures Plain(Show(x)) && Show(x) != ""
  {
    hide Comparison, Join, Bracket, Plain;
    match x
    case Base(field, op, value) => ComparisonPlain(field, op, value);
    case Then(field, op, value, c, rest) =>
      ComparisonPlain(field, op, value);
      ShowPlain(rest);
      JoinPlain(Comparison(field, op, value), c, Show(rest));
    case Paren(inner) =>
      ShowPlain(inner);
      BracketPlain(Show(inner));
    case ParenThen(inner, c, rest) =>
      ShowPlain(inner);
      BracketPlain(Show(inner));
      ShowPlain(rest);
      JoinPlain(Bracket(Show(inner)), c, Show(rest));
  }

  lemma ComparisonPlain(field: string, op: string, value: string)
    requires Tokens(field, op, value)
    ensures Plain(Comparison(field, op, value)) && Comparison(field, op, value) != ""
  {
    var t := Comparison(field, op, value);
    forall i | 0 <= i < |t|
      ensures !Is(Spaces, t[i])
    {
      if i < |field| {
        assert Is(FieldChars, field[i]);
      } else if i >= |field| + |op| {
        assert Is(ValueChars, value[i - |field| - |op|]);
      }
    }
  }

  lemma JoinPlain(a: string, c: char, b: string)
    requires Plain(a) && Plain(b) && c in {'&', '|'}
    ensures Plain(Join(a, c, b)) && Join(a, c, b) != ""
  {
  }

  lemma BracketPlain(a: string)
    requires Plain(a)
    ensures Plain(Bracket(a)) && Bracket(a) != ""
  {
  }

  lemma SkipNothing(s: string)
    requires s == "" || !Is(Spaces, s[0])
    ensures Skip(s) == s
  {
  }

  lemma {:induction false} OneLine(s: string)
    requires Plain(s)
    ensures FirstLine(s) == |s|
  {
    if s != "" { OneLine(s[1..]); }
  }

  lemma {:induction false} SpanWhole(token: string, rest: string, k: Kind)
    requires All(token, k) && (rest == "" || !Is(k, rest[0]))
    ensures Span(token + rest, k) == |token|
  {
    if token == "" {
      assert token + rest == rest;
    } else {
      SpanWhole(token[1..], rest, k);
      assert (token + rest)[1..] == token[1..] + rest;
    }
  }

  lemma TokenWhole(token: string, rest: string, k: Kind)
    requires k in {FieldChars, ValueChars} && token != "" && All(token, k) && (rest == "" || !Is(k, rest[0]))
    ensures Token(token + rest, k) == (token, rest)
  {
    hide Span;
    assert !Is(Spaces, token[0]) by { assert Is(k, token[0]); }
    SkipNothing(token + rest);
    SpanWhole(token, rest, k);
  }

  lemma OpWhole(op: string, rest: string)
    requires op in OPS && rest != "" && rest[0] != '='
    ensures ScanOp(op + rest) == op && (op + rest)[|op|..] == rest && Skip(op + rest) == op + rest
    ensures !Is(FieldChars, op[0])
  {
    SkipNothing(op + rest);
  }

  // A comparison is scanned as its three tokens, whatever comes after it.
  lemma ScanWhole(field: string, op: string, value: string, rest: string)
    requires Tokens(field, op, value) && (rest == "" || (!Is(ValueChars, rest[0]) && !Is(Spaces, rest[0])))
    ensures ScanBase(Comparison(field, op, value) + rest) == TraceFilterModel.Base(field, op, value, rest)
  {
    hide Token, Skip, ScanOp;
    var tail := value + rest;
    assert Comparison(field, op, value) + rest == field + (op + tail);
    assert Is(ValueChars, tail[0]);
    OpWhole(op, tail);
    TokenWhole(field, op + tail, FieldChars);
    TokenWhole(value, rest, ValueChars);
    SkipNothing(rest);
  }

  lemma {:induction false} CloseOver(t: string, post: string, c: nat)
    requires c > 0 && forall i :: 0 <= i < |t| ==> t[i] != '(' && t[i] != ')'
    ensures CloseIn(t + post, c) == |t| + CloseIn(post, c)
  {
    if t == "" {
      assert t + post == post;
    } else {
      CloseOver(t[1..], post, c);
      assert (t + post)[1..] == t[1..] + post;
    }
  }

  lemma CloseOpens(t: string, c: nat)
    requires c > 0
    ensures CloseIn("(" + t, c) == 1 + CloseIn(t, c + 1)
    ensures c > 1 ==> CloseIn(")" + t, c) == 1 + CloseIn(t, c - 1)
    ensures CloseIn(")" + t, 1) == 0
  {
    assert ("(" + t)[1..] == t && (")" + t)[1..] == t;
  }

  lemma NoBrackets(field: string, op: string, value: string)
    requires Tokens(field, op, value)
    ensures var t := Comparison(field, op, value); forall i :: 0 <= i < |t| ==> t[i] != '(' && t[i] != ')'
  {
    var t := Comparison(field, op, value);
    forall i | 0 <= i < |t|
      ensures t[i] != '(' && t[i] != ')'
    {
      if i < |field| {
        assert Is(FieldChars, field[i]);
      } else if i >= |field| + |op| {
        assert Is(ValueChars, value[i - |field| - |op|]);
      }
    }
  }

  lemma JoinAssociates(a: string, c: char, b: string, post: string)
    ensures Join(a, c, b) + post == a + ([c] + (b + post)) && |Join(a, c, b)| == |a| + 1 + |b|
  {
  }

  // Shown expressions are balanced: looking for a closing bracket passes over them.
  lemma {:induction false} CloseShown(x: Syn, post: string, c: nat)
    requires WellFormed(x) && c > 0
    ensures CloseIn(Show(x) + post, c) == |Show(x)| + CloseIn(post, c)
    decreases x, 0
  {
    hide CloseIn, Comparison, Join, Bracket;
    match x
    case Base(field, op, value) =>
      NoBrackets(field, op, value);
      CloseOver(Show(x), post, c);
    case Then(field, op, value, k, rest) =>
      NoBrackets(field, op, value);
      JoinAssociates(Comparison(field, op, value), k, Show(rest), post);
      CloseOver(Comparison(field, op, value), [k] + (Show(rest) + post), c);
      CloseOver([k], Show(rest) + post, c);
      CloseShown(rest, post, c);
    case Paren(inner) => CloseBracket(inner, post, c);
    case ParenThen(inner, k, rest) =>
      JoinAssociates(Bracket(Show(inner)), k, Show(rest), post);
      CloseBracket(inner, [k] + (Show(rest) + post), c);
      CloseOver([k], Show(rest) + post, c);
      CloseShown(rest, post, c);
  }

  lemma CloseBracket(x: Syn, post: string, c: nat)
    requires WellFormed(x) && c > 0
    ensures CloseIn(Bracket(Show(x)) + post, c) == |Bracket(Show(x))| + CloseIn(post, c)
    decreases x, 1
  {
    hide CloseIn;
    var s := Show(x);
    CloseOpens(s + (")" + post), c);
    CloseShown(x, ")" + post, c + 1);
    CloseOpens(post, c + 1);
    assert Bracket(s) + post == "(" + (s + (")" + post));
  }

  // ---------- parsing what was shown ----------

  // What the parser does with a text that is not an outer pair of brackets.
  function ParseStripped(s: string): Option<Node> {
    var b := ScanBase(s);
    if b.Base? then
      if b.rest == "" then Atom(b.field, b.op, b.value)
      else if Connective(b.rest, false).Some? then
        Combine(Atom(b.field, b.op, b.value), b.rest[0], Parse(Connective(b.rest, false).value))
      else None
    else if Bracketed(s).Some? then
      var p := Bracketed(s).value;
      if Connective(p.1, true).Some? then Combine(Parse(p.0), p.1[0], Parse(Connective(p.1, true).value))
      else None
    else None
  }

  lemma ParseStrips(s: string)
    ensures Parse(s) == ParseStripped(Strip(s))
  {
    hide Strip, ScanBase, Bracketed, Connective, GetField, Expand, Combine;
  }

  lemma StripStep(s: string)
    ensures Strip(s) == if Inside(s).None? then s else Strip(Inside(s).value)
  {
  }

  lemma StripsNothing(s: string)
    requires s == "" || (!Is(Spaces, s[0]) && s[0] != '(')
    ensures Strip(s) == s && Inside(s) == None
  {
    SkipNothing(s);
  }

  lemma ConnectiveWhole(c: char, s: string, spaces: bool)
    requires c in {'&', '|'} && Plain(s)
    ensures Connective([c] + s, spaces) == Some(s)
  {
    OneLine(s);
    assert ([c] + s)[1..] == s && s[..|s|] == s;
  }

  lemma ComparisonStarts(field: string, op: string, value: string, rest: string)
    requires Tokens(field, op, value)
    ensures Comparison(field, op, value) + rest != ""
    ensures var c := (Comparison(field, op, value) + rest)[0]; !Is(Spaces, c) && c != '('
  {
    assert Is(FieldChars, field[0]);
  }

  lemma ParseComparison(field: string, op: string, value: string)
    requires Tokens(field, op, value)
    ensures Parse(Comparison(field, op, value)) == Atom(field, op, value)
  {
    hide Comparison, Strip, ScanBase, Atom;
    var s := Comparison(field, op, value);
    assert s + "" == s;
    ComparisonStarts(field, op, value, "");
    StripsNothing(s);
    ScanWhole(field, op, value, "");
    ParseStrips(s);
  }

  lemma ParseThen(field: string, op: string, value: string, c: char, rest: string)
    requires Tokens(field, op, value) && c in {'&', '|'} && Plain(rest)
    ensures Parse(Join(Comparison(field, op, value), c, rest)) == Combine(Atom(field, op, value), c, Parse(rest))
  {
    hide Comparison, Strip, ScanBase, Atom, Parse, Connective, Combine;
    var s := Join(Comparison(field, op, value), c, rest);
    ComparisonStarts(field, op, value, [c] + rest);
    StripsNothing(s);
    ScanWhole(field, op, value, [c] + rest);
    ConnectiveWhole(c, rest, false);
    ParseStrips(s);
  }

  lemma ParseBracket(x: Syn)
    requires WellFormed(x)
    ensures Parse(Bracket(Show(x))) == Parse(Show(x))
  {
    hide Strip, Parse, ParseStripped, CloseIn, Show;
    var t := Show(x);
    var s := Bracket(t);
    SkipNothing(s);
    CloseShown(x, ")", 1);
    CloseOpens("", 1);
    assert s[1..] == t + ")" && ")" + "" == ")" && s[1..][..|t|] == t && s[|t| + 2..] == "";
    StripStep(s);
    ParseStrips(s);
    ParseStrips(t);
  }

  lemma BracketSlices(t: string, after: string)
    ensures var s := Bracket(t) + after;
            && |s| == |t| + 2 + |after| && s[0] == '(' && s[1..] == t + (")" + after)
            && s[1..][..|t|] == t && s[|t| + 2..] == after
  {
  }

  lemma BracketNoBase(s: string)
    requires s != "" && s[0] in {'(', '['}
    ensures ScanBase(s) == NoBase && Skip(s) == s
  {
    hide ScanComparison, ScanOp, Skip;
    SkipNothing(s);
    assert Span(s, FieldChars) == 0 && s[..0] == "";
  }

  // A balanced text in brackets with something after it is found, and is not an outer pair.
  lemma BracketedWhole(t: string, after: string)
    requires CloseIn(t + (")" + after), 1) == |t| && after != "" && !Is(Spaces, after[0])
    ensures var s := Bracket(t) + after; Inside(s) == None && Bracketed(s) == Some((t, after)) && ScanBase(s) == NoBase
  {
    hide CloseIn, Bracket, ScanBase, Skip;
    BracketSlices(t, after);
    BracketNoBase(Bracket(t) + after);
    SkipNothing(after);
  }

  lemma ParseParenThen(x: Syn, c: char, rest: string)
    requires WellFormed(x) && c in {'&', '|'} && Plain(rest)
    ensures Parse(Join(Bracket(Show(x)), c, rest)) == Combine(Parse(Show(x)), c, Parse(rest))
  {
    hide Strip, Parse, Show, Connective, Combine, Bracketed, Inside, ScanBase, Bracket, CloseIn;
    var s := Join(Bracket(Show(x)), c, rest);
    CloseShown(x, ")" + ([c] + rest), 1);
    CloseOpens([c] + rest, 1);
    BracketedWhole(Show(x), [c] + rest);
    StripStep(s);
    ConnectiveWhole(c, rest, true);
    ParseStrips(s);
  }

  // Parsing the text of an expression gives its meaning.
  lemma {:induction false} ParseShow(x: Syn)
    requires WellFormed(x)
    ensures Parse(Show(x)) == Denote(x)
  {
    hide Parse, Comparison, Join, Bracket, Atom, Combine;
    match x
    case Base(field, op, value) => ParseComparison(field, op, value);
    case Then(field, op, value, c, rest) =>
      ShowPlain(rest);
      ParseThen(field, op, value, c, Show(rest));
      ParseShow(rest);
    case Paren(inner) =>
      ParseBracket(inner);
      ParseShow(inner);
    case ParenThen(inner, c, rest) =>
      ShowPlain(rest);
      ParseParenThen(inner, c, Show(rest));
      ParseShow(inner);
      ParseShow(rest);
  }
}
