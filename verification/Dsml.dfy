/** The DSML form of tool calls: its printer, and its parser as the leftmost matches of two
    patterns. */
module Dsml {
  import opened Scan
  import opened Wrappers

  const TOKEN: string := "\U{FF5C}DSML\U{FF5C}"
  const PARAM_TAG: string := "<" + TOKEN + "parameter"
  const PARAM_CLOSE: string := "</" + TOKEN + "parameter>"
  const INVOKE_TAG: string := "<" + TOKEN + "invoke"
  const INVOKE_CLOSE: string := "</" + TOKEN + "invoke>"
  const CALLS_OPEN: string := "<" + TOKEN + "tool_calls>"
  const CALLS_CLOSE: string := "</" + TOKEN + "tool_calls>"

  /** A parameter as text, with the flag that says whether it is a string. */
  datatype Param = Param(name: string, isString: bool, text: string)

  datatype Call = Call(name: string, params: seq<Param>)

  // ----- the printer

  function Flag(isString: bool): string {
    if isString then "true" else "false"
  }

  function PrintParam(p: Param): string {
    PARAM_TAG + " name=\"" + p.name + "\" string=\"" + Flag(p.isString) + "\">" + p.text + PARAM_CLOSE
  }

  function Lines(ps: seq<Param>): (r: seq<string>)
    ensures |r| == |ps|
  {
    seq(|ps|, k requires 0 <= k < |ps| => PrintParam(ps[k]))
  }

  function PrintCall(c: Call): string {
    INVOKE_TAG + " name=\"" + c.name + "\">\n" + Join(Lines(c.params)) + "\n" + INVOKE_CLOSE
  }

  function PrintCalls(cs: seq<Call>): (r: seq<string>)
    ensures |r| == |cs|
  {
    seq(|cs|, k requires 0 <= k < |cs| => PrintCall(cs[k]))
  }

  function Print(cs: seq<Call>): string {
    CALLS_OPEN + "\n" + Join(PrintCalls(cs)) + "\n" + CALLS_CLOSE
  }

  // ----- the parser

  function MatchFlag(s: string): (r: Option<(bool, string)>)
    ensures r.Some? ==> s == Flag(r.value.0) + r.value.1
  {
    if "true" <= s then Some((true, s[4..])) else if "false" <= s then Some((false, s[5..])) else None
  }

  /** What the parameter pattern matches at the start of `s`, and what follows the match. */
  function MatchParam(s: string): (r: Option<(Param, string)>)
    ensures r.Some? ==> |r.value.1| < |s|
  {
    var s1 :- Literal(s, PARAM_TAG);
    var s2 :- Spaces(s1);
    var s3 :- Literal(s2, "name=\"");
    var (name, s4) :- Until(s3, '"');
    var s5 :- Literal(s4, "\"");
    var s6 :- Spaces(s5);
    var s7 :- Literal(s6, "string=\"");
    var (isString, s8) :- MatchFlag(s7);
    var s9 :- Literal(s8, "\">");
    var (text, rest) :- Split(s9, PARAM_CLOSE);
    Some((Param(name, isString, text), rest))
  }

  /** All matches of the parameter pattern, from left to right. */
  function Params(s: string): seq<Param>
    decreases |s|
  {
    if s == "" then []
    else match MatchParam(s)
      case None => Params(s[1..])
      case Some(m) => [m.0] + Params(m.1)
  }

  /** What the invoke pattern matches at the start of `s`, and what follows the match. */
  function MatchCall(s: string): (r: Option<(Call, string)>)
    ensures r.Some? ==> |r.value.1| < |s|
  {
    var s1 :- Literal(s, INVOKE_TAG);
    var s2 :- Spaces(s1);
    var s3 :- Literal(s2, "name=\"");
    var (name, s4) :- Until(s3, '"');
    var s5 :- Literal(s4, "\">");
    var (body, rest) :- Split(s5, INVOKE_CLOSE);
    Some((Call(name, Params(Strip(body))), rest))
  }

  function Calls(s: string): seq<Call>
    decreases |s|
  {
    if s == "" then []
    else match MatchCall(s)
      case None => Calls(s[1..])
      case Some(m) => [m.0] + Calls(m.1)
  }

  // ----- which calls survive

  predicate NameOk(name: string) {
    name != "" && '"' !in name
  }

  predicate ParamOk(p: Param) {
    NameOk(p.name) && !Contains(p.text, PARAM_CLOSE) && !Contains(p.name, INVOKE_CLOSE)
      && !Contains(p.text, INVOKE_CLOSE)
  }

  predicate Printable(c: Call) {
    NameOk(c.name) && forall p | p in c.params :: ParamOk(p)
  }

  // ----- printing then parsing

  lemma Tokens()
    ensures PARAM_CLOSE[0] !in PARAM_CLOSE[1..] && PARAM_CLOSE != ""
    ensures INVOKE_CLOSE[0] == '<' && INVOKE_CLOSE[0] !in INVOKE_CLOSE[1..] && INVOKE_CLOSE != ""
    ensures 'k' in INVOKE_CLOSE && 'k' in INVOKE_TAG && '"' !in INVOKE_CLOSE && '\n' !in INVOKE_CLOSE
    ensures 'k' !in PARAM_TAG && 'k' !in PARAM_CLOSE && 'k' !in CALLS_OPEN && 'k' !in CALLS_CLOSE
    ensures '<' !in CALLS_OPEN[1..]
    ensures PARAM_TAG != "" && PARAM_TAG[0] == '<' && PARAM_CLOSE[|PARAM_CLOSE| - 1] == '>'
    ensures INVOKE_TAG != "" && INVOKE_TAG[0] == '<'
    ensures '>' !in INVOKE_CLOSE[..|INVOKE_CLOSE| - 1]
    ensures PARAM_CLOSE[0] == '<'
  {
  }

  lemma SpaceBefore(rest: string)
    requires rest != "" && !IsSpace(rest[0])
    ensures Spaces(" " + rest) == Some(rest)
  {
    assert IsSpace(' ') && SkipSpace(rest) == rest;
    assert (" " + rest)[1..] == rest;
  }

  lemma FlagOf(isString: bool, rest: string)
    ensures MatchFlag(Flag(isString) + rest) == Some((isString, rest))
  {
    var s := Flag(isString) + rest;
    assert s[|Flag(isString)|..] == rest;
    assert !isString ==> s[0] == 'f' && !("true" <= s);
  }

  /** What follows a parameter tag: the attributes, the text and the closing tag. */
  function AfterTag(p: Param, tail: string): string {
    var rest := p.text + PARAM_CLOSE + tail;
    " " + ("name=\"" + (p.name + ("\"" + (" " + ("string=\"" + (Flag(p.isString) + ("\">" + rest)))))))
  }

  lemma Assoc(a: string, b: string, c: string)
    ensures a + b + c == a + (b + c)
  {
  }

  lemma Attributes(s: string)
    ensures " name=\"" + s == " " + ("name=\"" + s)
    ensures "\" string=\"" + s == "\"" + (" " + ("string=\"" + s))
  {
  }

  lemma PrintedParam(p: Param, tail: string)
    ensures PrintParam(p) + tail == PARAM_TAG + AfterTag(p, tail)
  {
    hide Flag;
    var f := Flag(p.isString);
    var l1 := PARAM_TAG + " name=\"";
    var l2 := l1 + p.name;
    var l3 := l2 + "\" string=\"";
    var l4 := l3 + f;
    var l5 := l4 + "\">";
    var s9 := p.text + PARAM_CLOSE + tail;
    var s8 := "\">" + s9;
    var s7 := f + s8;
    var s4 := "\"" + (" " + ("string=\"" + s7));
    Ends(l5, p.text, PARAM_CLOSE, tail);
    Assoc(l4, "\">", s9);
    Assoc(l3, f, s8);
    Assoc(l2, "\" string=\"", s7);
    Attributes(s7);
    Assoc(l1, p.name, s4);
    Assoc(PARAM_TAG, " name=\"", p.name + s4);
    Attributes(p.name + s4);
  }

  lemma Ends(a: string, b: string, c: string, d: string)
    ensures a + b + c + d == a + (b + c + d)
  {
    Assoc(a, b, c);
    Assoc(a, b + c, d);
  }

  /** A printed parameter is matched whole, whatever follows. */
  lemma ParamMatches(p: Param, tail: string)
    requires ParamOk(p)
    ensures MatchParam(PrintParam(p) + tail) == Some((p, tail))
  {
    hide Literal, Spaces, Until, MatchFlag, Split, IsSpace, PrintParam, Flag, Contains;
    Tokens();
    PrintedParam(p, tail);
    var s9 := p.text + PARAM_CLOSE + tail;
    var s8 := "\">" + s9;
    var s7 := Flag(p.isString) + s8;
    var s6 := "string=\"" + s7;
    var s5 := " " + s6;
    var s4 := "\"" + s5;
    var s3 := p.name + s4;
    var s2 := "name=\"" + s3;
    LiteralOf(PARAM_TAG, AfterTag(p, tail));
    Letters();
    SpaceBefore(s2);
    LiteralOf("name=\"", s3);
    UntilStop(p.name, '"', s4);
    LiteralOf("\"", s5);
    SpaceBefore(s6);
    LiteralOf("string=\"", s7);
    FlagOf(p.isString, s8);
    LiteralOf("\">", s9);
    SplitClosed(p.text, PARAM_CLOSE, tail);
  }

  lemma Letters()
    ensures !IsSpace('n') && !IsSpace('s') && !IsSpace('<') && !IsSpace('>')
  {
  }

  lemma PrintedParamStarts(p: Param)
    ensures PrintParam(p) != "" && PrintParam(p)[0] == '<' && PrintParam(p)[|PrintParam(p)| - 1] == '>'
  {
    Tokens();
  }

  lemma LinesMore(ps: seq<Param>)
    requires ps != []
    ensures Lines(ps) == [PrintParam(ps[0])] + Lines(ps[1..])
  {
  }

  lemma {:induction false} ParamsBack(ps: seq<Param>)
    requires forall p | p in ps :: ParamOk(p)
    ensures Params(Join(Lines(ps))) == ps
  {
    hide MatchParam, PrintParam, ParamOk, Lines;
    if ps == [] {
      LinesNone();
    } else {
      ParamsBack(ps[1..]);
      LinesMore(ps);
      JoinMore(PrintParam(ps[0]), Lines(ps[1..]));
      PrintedParamStarts(ps[0]);
      var rest := Join(Lines(ps[1..]));
      var tail := if ps[1..] == [] then "" else "\n" + rest;
      assert PrintParam(ps[0]) + "\n" + rest == PrintParam(ps[0]) + ("\n" + rest);
      assert Join(Lines(ps)) == PrintParam(ps[0]) + tail;
      ParamMatches(ps[0], tail);
      NewlineSkipped(rest);
      assert Params(tail) == ps[1..];
      assert ps == [ps[0]] + ps[1..];
    }
  }

  lemma LinesNone()
    ensures Join(Lines([])) == "" && Params("") == []
  {
  }

  lemma NewlineSkipped(rest: string)
    ensures Params("\n" + rest) == Params(rest)
  {
    Tokens();
    assert MatchParam("\n" + rest) == None;
    assert ("\n" + rest)[1..] == rest;
  }

  /** A printed parameter does not contain the closing tag of the invocation. */
  lemma ParamFree(p: Param)
    requires ParamOk(p)
    ensures !Contains(PrintParam(p), INVOKE_CLOSE)
  {
    hide Contains, Flag;
    Tokens();
    var c := INVOKE_CLOSE;
    var head, mid := PARAM_TAG + " name=\"", "\" string=\"" + Flag(p.isString) + "\">";
    FlagHasNoK(p.isString);
    LacksChar(head, c, 'k');
    LacksChar(mid, c, 'k');
    LacksChar(PARAM_CLOSE, c, 'k');
    Joined(head, p.name, c);
    Joined(head + p.name, mid, c);
    Joined(head + p.name + mid, p.text, c);
    Joined(head + p.name + mid + p.text, PARAM_CLOSE, c);
    assert PrintParam(p) == head + p.name + mid + p.text + PARAM_CLOSE;
  }

  lemma FlagHasNoK(isString: bool)
    ensures 'k' !in Flag(isString)
  {
  }

  lemma {:induction false} LinesFree(ps: seq<Param>)
    requires forall p | p in ps :: ParamOk(p)
    ensures !Contains("\n" + Join(Lines(ps)), INVOKE_CLOSE)
  {
    hide Contains, PrintParam, ParamOk, Lines;
    Tokens();
    var c := INVOKE_CLOSE;
    LacksChar("\n", c, 'k');
    if ps == [] {
      LinesNone();
      assert "\n" + Join(Lines(ps)) == "\n";
    } else {
      LinesFree(ps[1..]);
      LinesMore(ps);
      JoinMore(PrintParam(ps[0]), Lines(ps[1..]));
      var rest := "\n" + Join(Lines(ps[1..]));
      ParamFree(ps[0]);
      Joined("\n", PrintParam(ps[0]), c);
      Joined("\n" + PrintParam(ps[0]), rest, c);
      assert "\n" + PrintParam(ps[0]) + rest == "\n" + (PrintParam(ps[0]) + "\n" + Join(Lines(ps[1..])));
    }
  }

  lemma LinesEnds(ps: seq<Param>)
    ensures var s := Join(Lines(ps)); s == "" || (s[0] == '<' && s[|s| - 1] == '>')
  {
    hide PrintParam, Lines;
    if ps == [] {
      LinesNone();
    } else {
      LinesMore(ps);
      JoinMore(PrintParam(ps[0]), Lines(ps[1..]));
      PrintedParamStarts(ps[0]);
      LinesEnds(ps[1..]);
      if ps[1..] != [] {
        LinesMore(ps[1..]);
        JoinMore(PrintParam(ps[1]), Lines(ps[1..][1..]));
        PrintedParamStarts(ps[1]);
      }
    }
  }

  /** A printed call is matched whole, whatever follows. */
  lemma CallMatches(c: Call, tail: string)
    requires Printable(c)
    ensures MatchCall(PrintCall(c) + tail) == Some((c, tail))
  {
    hide Literal, Spaces, Until, Split, IsSpace, Contains, Lines, Join, Strip, Params, ParamOk;
    Tokens();
    var lines := Join(Lines(c.params));
    var body := "\n" + lines + "\n";
    var s5 := body + INVOKE_CLOSE + tail;
    var s4 := "\">" + s5;
    var s3 := c.name + s4;
    var s2 := "name=\"" + s3;
    var s1 := " " + s2;
    assert PrintCall(c) + tail == INVOKE_TAG + s1;
    LiteralOf(INVOKE_TAG, s1);
    Letters();
    SpaceBefore(s2);
    LiteralOf("name=\"", s3);
    UntilStop(c.name, '"', s4);
    LiteralOf("\">", s5);
    LinesFree(c.params);
    LacksChar("\n", INVOKE_CLOSE, 'k');
    Joined("\n" + lines, "\n", INVOKE_CLOSE);
    SplitClosed(body, INVOKE_CLOSE, tail);
    LinesEnds(c.params);
    NoSpaces(lines);
    ParamsBack(c.params);
  }
}
