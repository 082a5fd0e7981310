/** Printing DSML tool calls and parsing them gives the calls back exactly when the parser could
    have produced them; and the printer and parser as the template runs them. */
module DsmlRoundTrip {
  import opened Dsml
  import opened Scan
  import opened ToolArguments
  import opened Wrappers

  // ----- printable calls come back

  lemma {:induction false} NoTagSkipped(a: string, rest: string)
    requires '<' !in a
    ensures Calls(a + rest) == Calls(rest)
  {
    if a == "" {
      assert a + rest == rest;
    } else {
      Tokens();
      assert MatchCall(a + rest) == None;
      assert (a + rest)[1..] == a[1..] + rest;
      NoTagSkipped(a[1..], rest);
    }
  }

  lemma OpeningSkipped(rest: string)
    ensures Calls(CALLS_OPEN + "\n" + rest) == Calls(rest)
  {
    hide IsSpace, Split, Spaces, Until;
    Tokens();
    var s := CALLS_OPEN + "\n" + rest;
    var a := CALLS_OPEN[1..] + "\n";
    assert s[|TOKEN| + 1] == 't' && INVOKE_TAG[|TOKEN| + 1] == 'i';
    assert MatchCall(s) == None;
    assert s[1..] == a + rest;
    NoTagSkipped(a, rest);
  }

  /** Text in which no invocation begins holds no calls. */
  lemma {:induction false} NoCalls(s: string)
    requires !Contains(s, INVOKE_TAG)
    ensures Calls(s) == []
  {
    if s != "" {
      Tokens();
      assert s == s[..1] + s[1..];
      FreeParts(s[..1], s[1..], INVOKE_TAG);
      assert MatchCall(s) == None;
      NoCalls(s[1..]);
    }
  }

  lemma PrintedCallNonempty(c: Call)
    ensures PrintCall(c) != ""
  {
    Tokens();
  }

  lemma {:induction false} CallsThen(cs: seq<Call>, tail: string)
    requires (forall c | c in cs :: Printable(c)) && !Contains("\n" + tail, INVOKE_TAG)
    ensures Calls(Join(PrintCalls(cs)) + "\n" + tail) == cs
  {
    hide MatchCall, PrintCall, Printable, Contains;
    NoCalls("\n" + tail);
    if cs == [] {
      assert Join(PrintCalls(cs)) + "\n" + tail == "\n" + tail;
    } else {
      CallsThen(cs[1..], tail);
      assert PrintCalls(cs) == [PrintCall(cs[0])] + PrintCalls(cs[1..]);
      JoinMore(PrintCall(cs[0]), PrintCalls(cs[1..]));
      var rest := Join(PrintCalls(cs[1..])) + "\n" + tail;
      var after := if cs[1..] == [] then "\n" + tail else "\n" + rest;
      assert Join(PrintCalls(cs)) + "\n" + tail == PrintCall(cs[0]) + after;
      CallMatches(cs[0], after);
      PrintedCallNonempty(cs[0]);
      NoTagSkipped("\n", rest);
      assert Calls(after) == cs[1..];
      assert cs == [cs[0]] + cs[1..];
    }
  }

  // ----- what the parser returns is printable

  lemma LiteralFree(s: string, p: string, c: string)
    requires c != "" && !Contains(s, c)
    ensures Literal(s, p).Some? ==> !Contains(Literal(s, p).value, c)
  {
    if p <= s {
      assert s == p + s[|p|..];
      FreeParts(p, s[|p|..], c);
    }
  }

  lemma SpacesFree(s: string, c: string)
    requires c != "" && !Contains(s, c)
    ensures Spaces(s).Some? ==> !Contains(Spaces(s).value, c)
  {
    var k := SkipIsSuffix(s);
    assert s == s[..k] + s[k..];
    FreeParts(s[..k], s[k..], c);
  }

  lemma FlagFree(s: string, c: string)
    requires c != "" && !Contains(s, c)
    ensures MatchFlag(s).Some? ==> !Contains(MatchFlag(s).value.1, c)
  {
    if MatchFlag(s).Some? {
      FreeParts(Flag(MatchFlag(s).value.0), MatchFlag(s).value.1, c);
    }
  }

  /** The name and the value of a match are pieces of the text, the value without its closing
      tag. */
  lemma MatchFree(s: string, c: string)
    requires c != "" && !Contains(s, c) && MatchParam(s).Some?
    ensures var (p, rest) := MatchParam(s).value;
      NameOk(p.name) && !Contains(p.name, c) && !Contains(p.text, c) && !Contains(rest, c)
        && !Contains(p.text, PARAM_CLOSE)
  {
    hide Contains, Split, Until, MatchFlag, Literal, Spaces;
    Tokens();
    LiteralFree(s, PARAM_TAG, c);
    var s1 := Literal(s, PARAM_TAG).value;
    SpacesFree(s1, c);
    var s2 := Spaces(s1).value;
    LiteralFree(s2, "name=\"", c);
    var s3 := Literal(s2, "name=\"").value;
    var (name, s4) := Until(s3, '"').value;
    FreeParts(name, s4, c);
    LiteralFree(s4, "\"", c);
    var s5 := Literal(s4, "\"").value;
    SpacesFree(s5, c);
    var s6 := Spaces(s5).value;
    LiteralFree(s6, "string=\"", c);
    var s7 := Literal(s6, "string=\"").value;
    FlagFree(s7, c);
    var (isString, s8) := MatchFlag(s7).value;
    LiteralFree(s8, "\">", c);
    var s9 := Literal(s8, "\">").value;
    SplitSome(s9, PARAM_CLOSE);
    var (text, rest) := Split(s9, PARAM_CLOSE).value;
    SplitFirst(s9, PARAM_CLOSE);
    FreeParts(text + PARAM_CLOSE, rest, c);
    FreeParts(text, PARAM_CLOSE, c);
  }

  lemma {:induction false} ParamsOk(s: string)
    requires !Contains(s, INVOKE_CLOSE)
    ensures forall p | p in Params(s) :: ParamOk(p)
    decreases |s|
  {
    hide Contains, MatchParam, NameOk;
    if s != "" {
      match MatchParam(s)
      case None =>
        assert s == s[..1] + s[1..];
        FreeParts(s[..1], s[1..], INVOKE_CLOSE);
        ParamsOk(s[1..]);
      case Some(m) =>
        MatchFree(s, INVOKE_CLOSE);
        ParamsOk(m.1);
    }
  }

  lemma MatchCallOk(s: string)
    requires MatchCall(s).Some?
    ensures Printable(MatchCall(s).value.0)
  {
    hide Contains, Split, Until, Literal, Spaces, Params, Strip, ParamOk;
    Tokens();
    var s3 := Literal(Spaces(Literal(s, INVOKE_TAG).value).value, "name=\"").value;
    var (name, s4) := Until(s3, '"').value;
    var s5 := Literal(s4, "\">").value;
    SplitSome(s5, INVOKE_CLOSE);
    SplitFirst(s5, INVOKE_CLOSE);
    var (body, rest) := Split(s5, INVOKE_CLOSE).value;
    var a, b := StripInside(body);
    FreeParts(a + Strip(body), b, INVOKE_CLOSE);
    FreeParts(a, Strip(body), INVOKE_CLOSE);
    ParamsOk(Strip(body));
  }

  /** Every call that the parser finds, in any text, is printable. */
  lemma {:induction false} ParsedIsPrintable(s: string)
    ensures forall c | c in Calls(s) :: Printable(c)
    decreases |s|
  {
    hide MatchCall, Printable;
    if s != "" {
      match MatchCall(s)
      case None => ParsedIsPrintable(s[1..]);
      case Some(m) =>
        MatchCallOk(s);
        ParsedIsPrintable(m.1);
    }
  }

  // ----- the law

  /** Parsing the printed calls gives the same calls (names, parameters, order, flags and exact
      texts) if and only if names are non-empty and free of quotes, no text holds the parameter's
      closing tag and no parameter name or text holds the invocation's. */
  lemma RoundTripIff(cs: seq<Call>)
    ensures Calls(Print(cs)) == cs <==> forall c | c in cs :: Printable(c)
  {
    hide Printable;
    if forall c | c in cs :: Printable(c) {
      var rest := Join(PrintCalls(cs)) + "\n" + CALLS_CLOSE;
      assert Print(cs) == CALLS_OPEN + "\n" + rest;
      OpeningSkipped(rest);
      Tokens();
      LacksChar("\n" + CALLS_CLOSE, INVOKE_TAG, 'k');
      CallsThen(cs, CALLS_CLOSE);
    }
    ParsedIsPrintable(Print(cs));
  }

  /** What was parsed from any text prints to a text that parses to the same. */
  lemma ParsePrintParse(s: string)
    ensures Calls(Print(Calls(s))) == Calls(s)
  {
    ParsedIsPrintable(s);
    RoundTripIff(Calls(s));
  }

  // ----- calls with JSON values

  ghost predicate Faithful<J(!new)>(codec: Codec<J>) {
    forall j :: codec.loads(codec.dumps(j)) == Some(Json(j))
  }

  function ToParam<J>(codec: Codec<J>, a: Arg<J>): Param {
    match a.value
    case Str(text) => Param(a.name, true, text)
    case Json(j) => Param(a.name, false, codec.dumps(j))
  }

  function ToArg<J>(codec: Codec<J>, p: Param): Arg<J> {
    if p.isString then Arg(p.name, Str(p.text))
    else match codec.loads(p.text)
      case Some(v) => Arg(p.name, v)
      case None => Arg(p.name, Str(p.text))
  }

  function ToParams<J>(codec: Codec<J>, args: seq<Arg<J>>): (r: seq<Param>)
    ensures |r| == |args| && forall k | 0 <= k < |r| :: r[k] == ToParam(codec, args[k])
  {
    seq(|args|, k requires 0 <= k < |args| => ToParam(codec, args[k]))
  }

  function ToArgs<J>(codec: Codec<J>, ps: seq<Param>): (r: seq<Arg<J>>)
    ensures |r| == |ps| && forall k | 0 <= k < |r| :: r[k] == ToArg(codec, ps[k])
  {
    seq(|ps|, k requires 0 <= k < |ps| => ToArg(codec, ps[k]))
  }

  function ToCall<J>(codec: Codec<J>, f: Function<J>): Call {
    Call(f.name, ToParams(codec, f.arguments))
  }

  function ToFunction<J>(codec: Codec<J>, c: Call): Function<J> {
    Function(c.name, AssignAll(ToArgs(codec, c.params)))
  }

  function ToCalls<J>(codec: Codec<J>, fs: seq<Function<J>>): (r: seq<Call>)
    ensures |r| == |fs| && forall k | 0 <= k < |r| :: r[k] == ToCall(codec, fs[k])
  {
    seq(|fs|, k requires 0 <= k < |fs| => ToCall(codec, fs[k]))
  }

  function ToFunctions<J>(codec: Codec<J>, cs: seq<Call>): (r: seq<Function<J>>)
    ensures |r| == |cs| && forall k | 0 <= k < |r| :: r[k] == ToFunction(codec, cs[k])
  {
    seq(|cs|, k requires 0 <= k < |cs| => ToFunction(codec, cs[k]))
  }

  /** Functions whose rendered calls are printable come back with the same names, parameters,
      order and values; strings exactly, other values by the JSON contract. */
  lemma FunctionsRoundTrip<J(!new)>(codec: Codec<J>, fs: seq<Function<J>>)
    requires Faithful(codec)
    requires forall f | f in fs :: DistinctNames(f.arguments) && Printable(ToCall(codec, f))
    ensures ToFunctions(codec, Calls(Print(ToCalls(codec, fs)))) == fs
  {
    hide Printable, Calls, Print;
    var cs := ToCalls(codec, fs);
    RoundTripIff(cs);
    forall k | 0 <= k < |fs|
      ensures ToFunction(codec, cs[k]) == fs[k]
    {
      assert fs[k] in fs;
      var args := fs[k].arguments;
      assert ToArgs(codec, ToParams(codec, args)) == args;
      AssignAllDistinct(args);
    }
  }

  /** The value of a parameter: its exact text if it is a string or not JSON, and what the text
      stands for otherwise. */
  ghost predicate IsValue<J>(codec: Codec<J>, p: Param, v: Value<J>) {
    && (p.isString || codec.loads(p.text) == None ==> v == Str(p.text))
    && (!p.isString && codec.loads(p.text).Some? ==> Some(v) == codec.loads(p.text))
  }

  /** A function has the name of its call, and as arguments the dictionary of its parameters. */
  ghost predicate Reads<J>(codec: Codec<J>, c: Call, f: Function<J>) {
    && f.name == c.name
    && AreArgs(codec, c.params, ToArgs(codec, c.params)) && Fills(ToArgs(codec, c.params), f.arguments)
  }

  ghost predicate AreArgs<J>(codec: Codec<J>, ps: seq<Param>, args: seq<Arg<J>>) {
    |args| == |ps| && forall k | 0 <= k < |ps| :: args[k].name == ps[k].name && IsValue(codec, ps[k], args[k].value)
  }

  ghost predicate AllRead<J>(codec: Codec<J>, cs: seq<Call>, fs: seq<Function<J>>) {
    |fs| == |cs| && forall k | 0 <= k < |cs| :: Reads(codec, cs[k], fs[k])
  }

  /** What the parser makes of the calls that it finds, whatever their flags and texts. */
  lemma FunctionsAreRead<J>(codec: Codec<J>, cs: seq<Call>)
    ensures AllRead(codec, cs, ToFunctions(codec, cs))
  {
    forall k | 0 <= k < |cs|
      ensures Reads(codec, cs[k], ToFunction(codec, cs[k]))
    {
      var args := ToArgs(codec, cs[k].params);
      AssignAllFills(args);
      hide Fills, AssignAll;
      assert AreArgs(codec, cs[k].params, args);
    }
  }

  /** Printable calls with any flags and texts: the functions parsed from their print. */
  lemma PrintedAreRead<J>(codec: Codec<J>, cs: seq<Call>)
    requires forall c | c in cs :: Printable(c)
    ensures AllRead(codec, cs, ToFunctions(codec, Calls(Print(cs))))
  {
    hide Printable, AllRead;
    RoundTripIff(cs);
    FunctionsAreRead(codec, cs);
  }

  // ----- as the template runs it

  method EncodeArguments<J>(codec: Codec<J>, arguments: seq<Arg<J>>) returns (r: string)
    ensures r == Join(Lines(ToParams(codec, arguments)))
  {
    var lines: seq<string> := [];
    for k := 0 to |arguments|
      invariant lines == Lines(ToParams(codec, arguments[..k]))
    {
      var a := arguments[k];
      var isString, text := "false", "";
      match a.value {
        case Str(t) => isString, text := "true", t;
        case Json(j) => text := codec.dumps(j);
      }
      assert arguments[..k + 1] == arguments[..k] + [a];
      assert ToParams(codec, arguments[..k + 1]) == ToParams(codec, arguments[..k]) + [ToParam(codec, a)];
      lines := lines + [PARAM_TAG + " name=\"" + a.name + "\" string=\"" + isString + "\">" + text + PARAM_CLOSE];
    }
    assert arguments[..|arguments|] == arguments;
    r := Join(lines);
  }

  method FormatToolCalls<J>(codec: Codec<J>, functions: seq<Function<J>>) returns (r: string)
    ensures r == Print(ToCalls(codec, functions))
  {
    var invocations: seq<string> := [];
    for k := 0 to |functions|
      invariant invocations == PrintCalls(ToCalls(codec, functions[..k]))
    {
      var f := functions[k];
      var args := EncodeArguments(codec, f.arguments);
      assert functions[..k + 1] == functions[..k] + [f];
      assert ToCalls(codec, functions[..k + 1]) == ToCalls(codec, functions[..k]) + [ToCall(codec, f)];
      invocations := invocations + [INVOKE_TAG + " name=\"" + f.name + "\">\n" + args + "\n" + INVOKE_CLOSE];
    }
    assert functions[..|functions|] == functions;
    r := CALLS_OPEN + "\n" + Join(invocations) + "\n" + CALLS_CLOSE;
  }

  /** The functions found in a response; nothing stands for the fallback to another format. */
  method GetToolcall<J>(codec: Codec<J>, response: string) returns (r: Option<seq<Function<J>>>)
    ensures r == if Calls(response) == [] then None else Some(ToFunctions(codec, Calls(response)))
    ensures r.Some? ==> AllRead(codec, Calls(response), r.value)
  {
    FunctionsAreRead(codec, Calls(response));
    hide AllRead;
    var matches := Calls(response);
    var functions: seq<Function<J>> := [];
    for i := 0 to |matches|
      invariant functions == ToFunctions(codec, matches[..i])
    {
      var ps := matches[i].params;
      var arguments: seq<Arg<J>> := [];
      for k := 0 to |ps|
        invariant arguments == AssignAll(ToArgs(codec, ps[..k]))
      {
        var value := Str(ps[k].text);
        if !ps[k].isString {
          match codec.loads(ps[k].text) {
            case Some(v) => value := v;
            case None =>
          }
        }
        assert ToArgs(codec, ps[..k + 1]) == ToArgs(codec, ps[..k]) + [ToArg(codec, ps[k])];
        assert ToArgs(codec, ps[..k + 1])[..k] == ToArgs(codec, ps[..k]);
        arguments := Assign(arguments, Arg(ps[k].name, value));
      }
      assert ps[..|ps|] == ps;
      assert ToFunctions(codec, matches[..i + 1]) == ToFunctions(codec, matches[..i]) + [ToFunction(codec, matches[i])];
      functions := functions + [Function(matches[i].name, arguments)];
    }
    assert matches[..|matches|] == matches;
    r := if functions == [] then None else Some(functions);
  }
}
