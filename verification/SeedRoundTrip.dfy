/** Printing Seed tool calls and parsing them. */
module SeedRoundTrip {
  import opened Scan
  import opened Seed
  import opened ToolArguments
  import opened Wrappers

  lemma Tokens()
    ensures PARAM_CLOSE != "" && PARAM_CLOSE[0] == '<' && PARAM_CLOSE[0] !in PARAM_CLOSE[1..]
    ensures END != "" && END[0] == '<' && END[0] !in END[1..] && '>' !in END[..|END| - 1] && '=' !in END
      && '\n' !in END && '_' in END
    ensures '_' !in FUNCTION_TAG && '_' !in PARAM_TAG && '_' !in PARAM_CLOSE && '_' !in FUNCTION_CLOSE
    ensures FUNCTION_TAG[|FUNCTION_TAG| - 1] == '=' && PARAM_TAG[|PARAM_TAG| - 1] == '='
    ensures 'p' in PARAM_TAG && 'p' !in FUNCTION_CLOSE && '<' !in FUNCTION_TAG[1..] && PARAM_TAG[0] == '<'
      && '>' !in PARAM_TAG
    ensures FUNCTION_TAG[0] == '<' && FUNCTION_TAG[1] == 'f' && PARAM_TAG[1] == 'p' && 'p' in PARAM_CLOSE
    ensures START[0] == '<'
  {
    EndTokens();
    ParamTokens();
    FunctionTokens();
  }

  lemma EndTokens()
    ensures END != "" && END[0] == '<' && END[0] !in END[1..] && '>' !in END[..|END| - 1] && '=' !in END
      && '\n' !in END && '_' in END
    ensures START[0] == '<'
  {
  }

  lemma ParamTokens()
    ensures PARAM_CLOSE != "" && PARAM_CLOSE[0] == '<' && PARAM_CLOSE[0] !in PARAM_CLOSE[1..]
    ensures '_' !in PARAM_TAG && '_' !in PARAM_CLOSE && 'p' in PARAM_CLOSE && PARAM_TAG[|PARAM_TAG| - 1] == '='
    ensures 'p' in PARAM_TAG && PARAM_TAG[0] == '<' && '>' !in PARAM_TAG && PARAM_TAG[1] == 'p'
  {
  }

  lemma FunctionTokens()
    ensures '_' !in FUNCTION_TAG && '_' !in FUNCTION_CLOSE && FUNCTION_TAG[|FUNCTION_TAG| - 1] == '='
    ensures 'p' !in FUNCTION_CLOSE && '<' !in FUNCTION_TAG[1..] && FUNCTION_TAG[0] == '<' && FUNCTION_TAG[1] == 'f'
  {
  }

  // ----- the body of a printed call

  /** The lines after the function tag. */
  function Tail(ps: seq<Param>): string {
    "\n" + if ps == [] then FUNCTION_CLOSE else PrintParam(ps[0]) + Tail(ps[1..])
  }

  lemma {:induction false} TailJoins(ps: seq<Param>, head: string)
    ensures Join([head] + Lines(ps) + [FUNCTION_CLOSE]) == head + Tail(ps)
  {
    hide PrintParam;
    if ps == [] {
      assert [head] + Lines(ps) + [FUNCTION_CLOSE] == [head, FUNCTION_CLOSE];
      assert [head, FUNCTION_CLOSE][1..] == [FUNCTION_CLOSE];
    } else {
      var x := PrintParam(ps[0]);
      TailJoins(ps[1..], x);
      assert Lines(ps) == [x] + Lines(ps[1..]);
      var more := [x] + Lines(ps[1..]) + [FUNCTION_CLOSE];
      assert [head] + Lines(ps) + [FUNCTION_CLOSE] == [head] + more;
      assert ([head] + more)[1..] == more;
      assert head + "\n" + (x + Tail(ps[1..])) == head + ("\n" + (x + Tail(ps[1..])));
    }
  }

  function Body(c: Call): string {
    "\n" + (FUNCTION_TAG + (c.name + (">" + Tail(c.params))) + "\n")
  }

  lemma PrintedCall(c: Call, tail: string)
    ensures PrintCall(c) + tail == START + (Body(c) + END + tail)
  {
    hide Lines, Tail;
    TailJoins(c.params, FUNCTION_TAG + c.name + ">");
    var t := Tail(c.params);
    Nest(FUNCTION_TAG, c.name, ">", t);
    assert Inner(c) == FUNCTION_TAG + (c.name + (">" + t));
    Surround(START, Inner(c), END, tail);
  }

  lemma Nest(a: string, b: string, c: string, d: string)
    ensures a + b + c + d == a + (b + (c + d))
  {
    assert a + b + c + d == a + b + (c + d);
  }

  lemma Surround(a: string, b: string, c: string, d: string)
    ensures a + "\n" + b + "\n" + c + d == a + ("\n" + (b + "\n") + c + d)
  {
    assert a + "\n" + b + "\n" == a + ("\n" + (b + "\n"));
    Nest(a, "\n" + (b + "\n"), c, d);
    assert "\n" + (b + "\n") + (c + d) == "\n" + (b + "\n") + c + d;
  }

  // ----- parameters come back

  lemma ParamMatches(p: Param, tail: string)
    requires ParamOk(p)
    ensures MatchParam(PrintParam(p) + tail) == Some((p, tail))
  {
    hide Literal, Until, Split, Contains;
    Tokens();
    var s3 := p.text + PARAM_CLOSE + tail;
    var s2 := ">" + s3;
    var s1 := p.name + s2;
    Nest(PARAM_TAG, p.name, ">", p.text + PARAM_CLOSE + tail);
    assert PrintParam(p) + tail == PARAM_TAG + p.name + ">" + (p.text + PARAM_CLOSE + tail);
    LiteralOf(PARAM_TAG, s1);
    UntilStop(p.name, '>', s2);
    LiteralOf(">", s3);
    SplitClosed(p.text, PARAM_CLOSE, tail);
  }

  lemma {:induction false} NoTag(s: string)
    requires 'p' !in s
    ensures Params(s) == []
  {
    if s != "" {
      Tokens();
      if PARAM_TAG <= s {
        PrefixHas(s, PARAM_TAG, 'p');
      }
      NoTag(s[1..]);
    }
  }

  lemma {:induction false} NoTagSkipped(a: string, rest: string)
    requires '<' !in a
    ensures Params(a + rest) == Params(rest)
  {
    if a == "" {
      assert a + rest == rest;
    } else {
      Tokens();
      assert MatchParam(a + rest) == None;
      assert (a + rest)[1..] == a[1..] + rest;
      NoTagSkipped(a[1..], rest);
    }
  }

  lemma {:induction false} TailBack(ps: seq<Param>)
    requires forall p | p in ps :: ParamOk(p)
    ensures Params(Tail(ps) + "\n") == ps
  {
    hide MatchParam, PrintParam, ParamOk;
    Tokens();
    if ps == [] {
      NoTag(Tail(ps) + "\n");
    } else {
      TailBack(ps[1..]);
      var after := Tail(ps[1..]) + "\n";
      ParamMatches(ps[0], after);
      assert Tail(ps) + "\n" == "\n" + (PrintParam(ps[0]) + after);
      NoTagSkipped("\n", PrintParam(ps[0]) + after);
      assert PrintParam(ps[0]) + after != "" by {
        PrintedNonempty(ps[0]);
      }
      assert ps == [ps[0]] + ps[1..];
    }
  }

  lemma PrintedNonempty(p: Param)
    ensures PrintParam(p) != ""
  {
  }

  /** At a position of the function name the parameter pattern matches only when the name opens a
      parameter there, and a closing tag follows. */
  lemma MatchInName(x: string, rest: string)
    requires x != "" && '>' !in x
    ensures MatchParam(x + (">" + rest)).Some? <==> PARAM_TAG <= x && |x| > |PARAM_TAG| && Contains(rest, PARAM_CLOSE)
    ensures MatchParam(x + (">" + rest)).Some? ==>
      MatchParam(x + (">" + rest)).value
        == (Param(x[|PARAM_TAG|..], Split(rest, PARAM_CLOSE).value.0), Split(rest, PARAM_CLOSE).value.1)
  {
    hide Split;
    var s := x + (">" + rest);
    Tokens();
    SplitSome(rest, PARAM_CLOSE);
    if PARAM_TAG <= x {
      var name := x[|PARAM_TAG|..];
      assert s[|PARAM_TAG|..] == name + (">" + rest);
      UntilStop(name, '>', ">" + rest);
      LiteralOf(">", rest);
    } else {
      TagNeedsName(x, rest);
    }
  }

  lemma TagNeedsName(x: string, rest: string)
    requires !(PARAM_TAG <= x)
    ensures !(PARAM_TAG <= x + (">" + rest))
  {
    var s := x + (">" + rest);
    assert s[|x|] == '>';
    if |x| >= |PARAM_TAG| {
      assert s[..|PARAM_TAG|] == x[..|PARAM_TAG|];
    } else {
      Tokens();
      assert PARAM_TAG[|x|] != '>';
    }
  }

  lemma {:induction false} NameSkipped(x: string, rest: string)
    requires '>' !in x && (!Opens(x) || !Contains(rest, PARAM_CLOSE))
    ensures Params(x + (">" + rest)) == Params(">" + rest)
  {
    hide MatchParam, Contains;
    if x == "" {
      assert x + (">" + rest) == ">" + rest;
    } else {
      MatchInName(x, rest);
      NameSkipped(x[1..], rest);
      assert (x + (">" + rest))[1..] == x[1..] + (">" + rest);
    }
  }

  lemma FunctionTagSkipped(rest: string)
    ensures Params("\n" + (FUNCTION_TAG + rest)) == Params(rest)
  {
    hide Until, Split;
    Tokens();
    NoTagSkipped("\n", FUNCTION_TAG + rest);
    var s := FUNCTION_TAG + rest;
    assert s[1] == 'f';
    assert MatchParam(s) == None;
    assert s[1..] == FUNCTION_TAG[1..] + rest;
    NoTagSkipped(FUNCTION_TAG[1..], rest);
  }

  lemma BodyParams(c: Call)
    requires Clean(c) && Apart(c)
    ensures Params(Body(c)) == c.params
  {
    hide Contains, Tail, ParamOk, Opens;
    var t := Tail(c.params) + "\n";
    BodyIs(c);
    FunctionTagSkipped(c.name + (">" + t));
    if c.params == [] {
      NoClose();
    }
    NameSkipped(c.name, t);
    NoTagSkipped(">", t);
    TailBack(c.params);
  }

  lemma BodyIs(c: Call)
    ensures Body(c) == "\n" + (FUNCTION_TAG + (c.name + (">" + (Tail(c.params) + "\n"))))
  {
    hide Tail;
    var t := Tail(c.params);
    assert FUNCTION_TAG + (c.name + (">" + t)) + "\n" == FUNCTION_TAG + (c.name + (">" + t) + "\n");
    assert c.name + (">" + t) + "\n" == c.name + (">" + (t + "\n"));
  }

  lemma NoClose()
    ensures !Contains(Tail([]) + "\n", PARAM_CLOSE)
  {
    Tokens();
    LacksChar(Tail([]) + "\n", PARAM_CLOSE, 'p');
  }

  lemma BodyName(c: Call)
    requires NameOk(c.name)
    ensures FindName(Body(c)) == Some(c.name)
  {
    hide Contains, Tail, Until;
    BodyIs(c);
    Tokens();
    var s2 := ">" + (Tail(c.params) + "\n");
    var s := FUNCTION_TAG + (c.name + s2);
    LiteralOf(FUNCTION_TAG, c.name + s2);
    UntilStop(c.name, '>', s2);
    LiteralOf(">", Tail(c.params) + "\n");
    assert MatchName(s) == Some(c.name);
    assert MatchName(Body(c)) == None;
    assert Body(c)[1..] == s;
  }

  // ----- blocks come back

  lemma ParamFree(p: Param)
    requires ParamOk(p)
    ensures !Contains(PrintParam(p), END)
  {
    hide Contains;
    Tokens();
    LacksChar(PARAM_TAG, END, '_');
    LacksChar(PARAM_CLOSE, END, '_');
    Joined(PARAM_TAG, p.name + ">", END);
    Joined(PARAM_TAG + (p.name + ">"), p.text, END);
    Joined(PARAM_TAG + (p.name + ">") + p.text, PARAM_CLOSE, END);
    assert PrintParam(p) == PARAM_TAG + (p.name + ">") + p.text + PARAM_CLOSE;
  }

  lemma {:induction false} TailFree(ps: seq<Param>)
    requires forall p | p in ps :: ParamOk(p)
    ensures !Contains(Tail(ps), END)
  {
    hide Contains, PrintParam, ParamOk;
    Tokens();
    LacksChar("\n", END, '_');
    if ps == [] {
      LacksChar(Tail(ps), END, '_');
    } else {
      TailFree(ps[1..]);
      ParamFree(ps[0]);
      Joined(PrintParam(ps[0]), Tail(ps[1..]), END);
      Joined("\n", PrintParam(ps[0]) + Tail(ps[1..]), END);
    }
  }

  lemma BodyFree(c: Call)
    requires Clean(c)
    ensures !Contains(Body(c)[1..], END)
  {
    hide Contains, Tail, ParamOk;
    Tokens();
    var t := Tail(c.params);
    assert c.params == [] || c.params != [];
    TailFree(c.params);
    TailStarts(c.params);
    LacksChar(FUNCTION_TAG, END, '_');
    LacksChar("\n", END, '_');
    Joined(c.name + ">", t, END);
    Joined(FUNCTION_TAG, c.name + ">" + t, END);
    Joined(FUNCTION_TAG + (c.name + ">" + t), "\n", END);
    assert c.name + ">" + t == c.name + (">" + t);
    assert Body(c)[1..] == FUNCTION_TAG + (c.name + (">" + t)) + "\n";
  }

  lemma TailStarts(ps: seq<Param>)
    ensures Tail(ps) != "" && Tail(ps)[0] == '\n'
  {
  }

  lemma BlockMatches(c: Call, tail: string)
    requires Clean(c)
    ensures MatchBlock(PrintCall(c) + tail) == Some((Body(c), tail))
  {
    hide Contains, Tail, Split, PrintCall, Clean;
    Tokens();
    PrintedCall(c, tail);
    var b := Body(c);
    var s1 := b + END + tail;
    LiteralOf(START, s1);
    BodyFree(c);
    SplitClosed(b[1..], END, tail);
    assert s1[1..] == b[1..] + END + tail;
    assert s1[..1] + b[1..] == b;
  }

  function Bodies(cs: seq<Call>): (r: seq<string>)
    ensures |r| == |cs| && forall k | 0 <= k < |r| :: r[k] == Body(cs[k])
  {
    seq(|cs|, k requires 0 <= k < |cs| => Body(cs[k]))
  }

  /** What is printed after the first call. */
  function AfterFirst(cs: seq<Call>): string
    requires cs != []
  {
    if cs[1..] == [] then "" else "\n" + Print(cs[1..])
  }

  lemma PrintFirst(cs: seq<Call>)
    requires cs != []
    ensures Print(cs) == PrintCall(cs[0]) + AfterFirst(cs)
  {
    hide PrintCall, Join;
    var x, rest := PrintCall(cs[0]), Print(cs[1..]);
    assert PrintCalls(cs) == [x] + PrintCalls(cs[1..]);
    JoinMore(x, PrintCalls(cs[1..]));
    assert x + "\n" + rest == x + ("\n" + rest);
  }

  lemma BodiesFirst(cs: seq<Call>)
    requires cs != []
    ensures Bodies(cs) == [Body(cs[0])] + Bodies(cs[1..])
  {
    hide Body;
  }

  lemma {:induction false} BlocksBack(cs: seq<Call>)
    requires forall c | c in cs :: Clean(c)
    ensures Blocks(Print(cs)) == Bodies(cs)
  {
    hide *;
    NoBlocks();
    if cs != [] {
      BlocksBack(cs[1..]);
      PrintFirst(cs);
      BlockMatches(cs[0], AfterFirst(cs));
      PrintedCallNonempty(cs[0]);
      MatchedFirst(Print(cs));
      BlocksAfter(cs);
      BodiesFirst(cs);
    }
  }

  lemma BlocksAfter(cs: seq<Call>)
    requires cs != []
    ensures Blocks(AfterFirst(cs)) == Blocks(Print(cs[1..]))
  {
    hide Blocks, Print;
    NoBlocks();
    NewlineSkipped(Print(cs[1..]));
  }

  lemma NoBlocks()
    ensures Blocks("") == [] && Print([]) == "" && Bodies([]) == []
  {
  }

  lemma MatchedFirst(s: string)
    requires s != "" && MatchBlock(s).Some?
    ensures Blocks(s) == [MatchBlock(s).value.0] + Blocks(MatchBlock(s).value.1)
  {
  }

  lemma NewlineSkipped(rest: string)
    ensures Blocks("\n" + rest) == Blocks(rest)
  {
    Tokens();
    assert MatchBlock("\n" + rest) == None;
    assert ("\n" + rest)[1..] == rest;
  }

  lemma PrintedCallNonempty(c: Call)
    ensures PrintCall(c) != ""
  {
    assert |PrintCall(c)| >= |START|;
  }

  lemma {:induction false} BodiesBack(cs: seq<Call>)
    requires forall c | c in cs :: Clean(c)
    ensures |FromBlocks(Bodies(cs))| == |cs|
    ensures forall k | 0 <= k < |cs| :: FromBlocks(Bodies(cs))[k] == Call(cs[k].name, Params(Body(cs[k])))
  {
    hide Body, ParamOk, Params, Contains;
    if cs != [] {
      BodiesBack(cs[1..]);
      assert cs[0] in cs && Clean(cs[0]);
      BodyName(cs[0]);
      assert Bodies(cs)[1..] == Bodies(cs[1..]);
      assert FromBlocks(Bodies(cs)) == [Call(cs[0].name, Params(Body(cs[0])))] + FromBlocks(Bodies(cs[1..]));
    }
  }

  /** Clean calls whose function names do not open a parameter come back: the same names,
      parameters, order and exact texts. */
  lemma RoundTrip(cs: seq<Call>)
    requires forall c | c in cs :: Clean(c) && Apart(c)
    ensures Calls(Print(cs)) == cs
  {
    hide Clean, Apart, Blocks, Print, Body;
    BlocksBack(cs);
    BodiesBack(cs);
    forall k | 0 <= k < |cs|
      ensures FromBlocks(Bodies(cs))[k] == cs[k]
    {
      assert cs[k] in cs;
      BodyParams(cs[k]);
    }
  }

  // ----- what the parser returns is clean

  /** A match takes its name and its text from the rest of the text, where the closing tag of the
      block does not occur. */
  lemma MatchFree(s: string)
    requires s != "" && !Contains(s[1..], END) && MatchParam(s).Some?
    ensures ParamOk(MatchParam(s).value.0)
    ensures !Contains(MatchParam(s).value.1, END)
  {
    hide Contains, Split, Until;
    Tokens();
    var s1 := s[|PARAM_TAG|..];
    var (name, s2) := Until(s1, '>').value;
    var s3 := s2[1..];
    TailSuffix(s, |PARAM_TAG|);
    assert s1 == name + ">" + s3;
    FreeParts(name + ">", s3, END);
    SplitSome(s3, PARAM_CLOSE);
    SplitFirst(s3, PARAM_CLOSE);
    var (text, rest) := Split(s3, PARAM_CLOSE).value;
    FreeParts(text + PARAM_CLOSE, rest, END);
    FreeParts(text, PARAM_CLOSE, END);
  }

  lemma TailSuffix(s: string, k: nat)
    requires 1 <= k <= |s| && !Contains(s[1..], END)
    ensures !Contains(s[k..], END)
  {
    assert s[1..] == s[1..k] + s[k..];
    FreeParts(s[1..k], s[k..], END);
  }

  lemma {:induction false} ParamsOk(s: string)
    requires s == "" || !Contains(s[1..], END)
    ensures forall p | p in Params(s) :: ParamOk(p)
    decreases |s|
  {
    hide Contains, MatchParam, NameOk;
    if s != "" {
      match MatchParam(s)
      case None =>
        if s[1..] != "" {
          TailSuffix(s, 2);
          assert s[1..][1..] == s[2..];
        }
        ParamsOk(s[1..]);
      case Some(m) =>
        MatchFree(s);
        if m.1 != "" {
          assert m.1 == m.1[..1] + m.1[1..];
          FreeParts(m.1[..1], m.1[1..], END);
        }
        ParamsOk(m.1);
    }
  }

  lemma {:induction false} NameFound(s: string)
    requires s == "" || !Contains(s[1..], END)
    ensures FindName(s).Some? ==> NameOk(FindName(s).value)
  {
    hide Contains, Until;
    if s != "" {
      if MatchName(s).Some? {
        var s1 := s[|FUNCTION_TAG|..];
        var (name, s2) := Until(s1, '>').value;
        TailSuffix(s, |FUNCTION_TAG|);
        assert s1 == name + ">" + s2[1..];
        FreeParts(name + ">", s2[1..], END);
      } else {
        if s[1..] != "" {
          TailSuffix(s, 2);
          assert s[1..][1..] == s[2..];
        }
        NameFound(s[1..]);
      }
    }
  }

  lemma {:induction false} BlocksFree(s: string)
    ensures forall b | b in Blocks(s) :: b != "" && !Contains(b[1..], END)
    decreases |s|
  {
    hide Contains, MatchBlock;
    if s != "" {
      match MatchBlock(s)
      case None => BlocksFree(s[1..]);
      case Some(m) =>
        BlockFree(s);
        BlocksFree(m.1);
    }
  }

  lemma BlockFree(s: string)
    requires MatchBlock(s).Some?
    ensures var b := MatchBlock(s).value.0; b != "" && !Contains(b[1..], END)
  {
    var s1 := s[|START|..];
    SplitFirst(s1[1..], END);
    assert MatchBlock(s).value.0[1..] == Split(s1[1..], END).value.0;
  }

  lemma {:induction false} FromBlocksClean(blocks: seq<string>)
    requires forall b | b in blocks :: b != "" && !Contains(b[1..], END)
    ensures forall c | c in FromBlocks(blocks) :: Clean(c)
  {
    hide Contains, FindName, Params, NameOk, ParamOk;
    if blocks != [] {
      assert blocks[0] in blocks && forall b | b in blocks[1..] :: b in blocks;
      NameFound(blocks[0]);
      ParamsOk(blocks[0]);
      FromBlocksClean(blocks[1..]);
    }
  }

  /** Every call that the parser finds, in any text, is clean. */
  lemma ParsedIsClean(s: string)
    ensures forall c | c in Calls(s) :: Clean(c)
  {
    BlocksFree(s);
    FromBlocksClean(Blocks(s));
  }

  // ----- a function name that opens a parameter

  /** The first position of the name where it opens a parameter. */
  lemma {:induction false} OpensAt(name: string) returns (i: nat)
    requires Opens(name)
    ensures i + |PARAM_TAG| < |name| && PARAM_TAG <= name[i..] && AfterOpening(name) == name[i..][|PARAM_TAG|..]
    ensures !Opens(name[..i]) && forall k | 0 <= k < i :: !(PARAM_TAG <= name[k..])
  {
    if PARAM_TAG <= name && |name| > |PARAM_TAG| {
      i := 0;
    } else {
      var j := OpensAt(name[1..]);
      i := j + 1;
      assert forall k | 0 <= k < j :: name[1..][k..] == name[k + 1..];
      assert name[1..][j..] == name[i..];
      assert name[..i][1..] == name[1..][..j];
      assert PARAM_TAG <= name[..i] ==> PARAM_TAG <= name;
      forall k | 0 <= k < i
        ensures !(PARAM_TAG <= name[k..])
      {
        if k > 0 {
          assert name[k..] == name[1..][k - 1..];
        }
      }
    }
  }

  lemma {:induction false} SkippedUpTo(name: string, i: nat, rest: string)
    requires '>' !in name && i < |name|
    requires forall k | 0 <= k < i :: !(PARAM_TAG <= name[k..])
    ensures Params(name + (">" + rest)) == Params(name[i..] + (">" + rest))
  {
    hide MatchParam;
    if i > 0 {
      assert name[0..] == name;
      MatchInName(name, rest);
      assert (name + (">" + rest))[1..] == name[1..] + (">" + rest);
      assert forall k | 0 <= k < i - 1 :: name[1..][k..] == name[k + 1..];
      SkippedUpTo(name[1..], i - 1, rest);
      assert name[1..][i - 1..] == name[i..];
    }
  }

  /** Such a name swallows the lines up to the first closing tag. */
  lemma SwallowedParams(c: Call)
    requires Clean(c) && c.params != [] && Opens(c.name)
    ensures var t := Tail(c.params) + "\n";
      && Split(t, PARAM_CLOSE).Some?
      && Params(Body(c)) == [Param(AfterOpening(c.name), Split(t, PARAM_CLOSE).value.0)]
        + Params(Split(t, PARAM_CLOSE).value.1)
  {
    hide Contains, Tail, Opens, AfterOpening, MatchParam, Split, NameOk;
    NameOkIs(c.name);
    var t := Tail(c.params) + "\n";
    BodyIs(c);
    FunctionTagSkipped(c.name + (">" + t));
    var i := OpensAt(c.name);
    SkippedUpTo(c.name, i, t);
    TailCloses(c.params);
    SplitSome(t, PARAM_CLOSE);
    MatchInName(c.name[i..], t);
  }

  lemma TailCloses(ps: seq<Param>)
    requires ps != []
    ensures Contains(Tail(ps) + "\n", PARAM_CLOSE)
  {
    hide Contains;
    var p, more := ps[0], Tail(ps[1..]) + "\n";
    FirstShape(p, Tail(ps[1..]));
    ContainsAt(PARAM_CLOSE, PARAM_CLOSE, 0);
    ContainsMore("\n" + PARAM_TAG + (p.name + ">") + p.text, PARAM_CLOSE, more, PARAM_CLOSE);
  }

  lemma NameOkIs(name: string)
    ensures NameOk(name) ==> name != "" && '>' !in name
  {
  }

  /** Unless the first parameter's name closes it, the first closing tag is the parameter's own. */
  lemma FirstText(ps: seq<Param>)
    requires ps != [] && ParamOk(ps[0]) && !Contains(ps[0].name + ">", PARAM_CLOSE)
    ensures var t := Tail(ps) + "\n"; Split(t, PARAM_CLOSE).Some? && |Split(t, PARAM_CLOSE).value.0| > |ps[0].text|
  {
    hide Contains, Split, NameOk;
    var p, more := ps[0], Tail(ps[1..]) + "\n";
    var before := "\n" + PARAM_TAG + (p.name + ">") + p.text;
    Tokens();
    CloseChars();
    LacksChar("\n" + PARAM_TAG, PARAM_CLOSE, '/');
    Joined("\n" + PARAM_TAG, p.name + ">", PARAM_CLOSE);
    Joined("\n" + PARAM_TAG + (p.name + ">"), p.text, PARAM_CLOSE);
    SplitClosed(before, PARAM_CLOSE, more);
    FirstShape(p, Tail(ps[1..]));
  }

  /** A name that closes its own parameter ends in the tag without its last character. */
  lemma ClosingName(name: string) returns (stem: string)
    requires '>' !in name && Contains(name + ">", PARAM_CLOSE)
    ensures name == stem + CLOSE_STEM
  {
    var s := name + ">";
    var i := WhereContained(s, PARAM_CLOSE);
    var n := |PARAM_CLOSE| - 1;
    assert PARAM_CLOSE[n] == '>' && PARAM_CLOSE[..n] == CLOSE_STEM;
    assert s[i..][n] == s[i + n] == '>';
    assert i + n == |name|;
    stem := name[..i];
    assert name[i..] == s[i..][..n] == CLOSE_STEM;
  }

  /** Then the first closing tag is the one in the name, and the text follows it. */
  lemma SelfClosedText(ps: seq<Param>, stem: string)
    requires ps != [] && ps[0].name == stem + CLOSE_STEM && '>' !in ps[0].name
    ensures Split(Tail(ps) + "\n", PARAM_CLOSE)
         == Some(("\n" + PARAM_TAG + stem, ps[0].text + PARAM_CLOSE + (Tail(ps[1..]) + "\n")))
  {
    hide Contains, Split;
    var p, more := ps[0], Tail(ps[1..]) + "\n";
    var before := "\n" + PARAM_TAG + stem;
    Tokens();
    CloseChars();
    assert '>' !in before;
    LacksChar(before, PARAM_CLOSE, '>');
    SplitClosed(before, PARAM_CLOSE, p.text + PARAM_CLOSE + more);
    FirstShape(p, Tail(ps[1..]));
    StemClosed(stem, p.text, more);
  }

  lemma StemClosed(stem: string, text: string, more: string)
    ensures "\n" + PARAM_TAG + (stem + CLOSE_STEM + ">") + text + PARAM_CLOSE + more
         == "\n" + PARAM_TAG + stem + PARAM_CLOSE + (text + PARAM_CLOSE + more)
  {
    var a, rest := "\n" + PARAM_TAG, text + PARAM_CLOSE + more;
    assert CLOSE_STEM + ">" == PARAM_CLOSE;
    assert stem + CLOSE_STEM + ">" == stem + (CLOSE_STEM + ">");
    assert a + (stem + PARAM_CLOSE) == a + stem + PARAM_CLOSE;
    Nest(a + (stem + PARAM_CLOSE), text, PARAM_CLOSE, more);
    assert text + (PARAM_CLOSE + more) == rest;
  }

  /** After a text that repeats the swallowed line: nothing when no parameter is left, and a
      parameter of the first name otherwise. */
  lemma AfterMirror(name: string, ps: seq<Param>)
    requires '>' !in name && name != ""
    ensures var r := Params("\n" + (PARAM_TAG + name + (">" + (Tail(ps) + "\n"))));
      if ps == [] then r == [] else r != [] && r[0].name == name
  {
    hide Contains, Split, Tail, MatchParam;
    Tokens();
    var t := Tail(ps) + "\n";
    var x := PARAM_TAG + name;
    NoTagSkipped("\n", x + (">" + t));
    MatchInName(x, t);
    if ps == [] {
      NoClose();
      NameSkipped(x, t);
      NoTagSkipped(">", t);
      NothingAfter();
    } else {
      TailCloses(ps);
      assert x[|PARAM_TAG|..] == name;
    }
  }

  lemma NothingAfter()
    ensures Params(Tail([]) + "\n") == []
  {
    Tokens();
    NoTag(Tail([]) + "\n");
  }

  /** Two ends of one string: the longer holds the character before the shorter. */
  lemma LongerEnd(text: string, stem: string, a: string, name: string)
    requires text + stem == a + name && a != "" && |name| < |stem|
    ensures a[|a| - 1] in stem
  {
    assert (a + name)[|a| - 1] == a[|a| - 1];
    assert (text + stem)[|a| - 1] == stem[|a| - 1 - |text|];
  }

  /** The longer end, cut at the shorter. */
  lemma ShorterEnd(text: string, stem: string, a: string, name: string)
    requires text + stem == a + name && |name| >= |stem|
    ensures var n := |name| - |stem|; name == name[..n] + stem && text == a + name[..n]
  {
    var n := |name| - |stem|;
    assert name[n..] == (a + name)[|a| + n..] == (text + stem)[|text|..] == stem;
    assert text == (text + stem)[..|text|] == (a + name)[..|a| + n] == a + name[..n];
    assert name == name[..n] + name[n..];
  }

  /** The text that mirrors the swallowed line, and where its name's stem is. */
  lemma MirroredText(text: string, name: string) returns (stem: string)
    requires text + CLOSE_STEM == "\n" + PARAM_TAG + name
    ensures name == stem + CLOSE_STEM && text == "\n" + PARAM_TAG + stem
  {
    var a, n := "\n" + PARAM_TAG, |CLOSE_STEM|;
    TagEnds();
    if |name| < n {
      LongerEnd(text, CLOSE_STEM, a, name);
    }
    ShorterEnd(text, CLOSE_STEM, a, name);
    stem := name[..|name| - n];
  }

  lemma TagEnds()
    ensures var a := "\n" + PARAM_TAG; a != "" && a[|a| - 1] !in CLOSE_STEM
  {
    Tokens();
    CloseChars();
  }

  /** When a call whose name opens a parameter comes back all the same. */
  lemma OpensIff(c: Call)
    requires Clean(c) && c.params != [] && Opens(c.name) && DistinctParams(c.params)
    ensures Params(Body(c)) == c.params <==> Mirrors(c)
  {
    hide Contains, Tail, Opens, AfterOpening, Split, Params, Body, NameOk;
    var p := c.params[0];
    assert p in c.params && ParamOk(p);
    NameOkIs(p.name);
    SwallowedParams(c);
    if !Contains(p.name + ">", PARAM_CLOSE) {
      FirstText(c.params);
      if Mirrors(c) {
        var stem := MirroredText(p.text, p.name);
        StemCloses(stem);
      }
    } else {
      var stem := ClosingName(p.name);
      SelfClosedText(c.params, stem);
      SelfClosedIff(c, stem);
    }
  }

  lemma StemCloses(stem: string)
    ensures Contains(stem + CLOSE_STEM + ">", PARAM_CLOSE)
  {
    assert stem + CLOSE_STEM + ">" == stem + PARAM_CLOSE + "";
    ContainsAt(PARAM_CLOSE, PARAM_CLOSE, 0);
    ContainsMore(stem, PARAM_CLOSE, "", PARAM_CLOSE);
  }

  lemma SelfClosedIff(c: Call, stem: string)
    requires c.params != [] && Opens(c.name) && DistinctParams(c.params)
    requires c.params[0].name == stem + CLOSE_STEM && '>' !in c.params[0].name
    requires Params(Body(c)) == [Param(AfterOpening(c.name), "\n" + PARAM_TAG + stem)]
      + Params(c.params[0].text + PARAM_CLOSE + (Tail(c.params[1..]) + "\n"))
    ensures Params(Body(c)) == c.params <==> Mirrors(c)
  {
    hide Tail, Opens, AfterOpening, Params, Body;
    var p, rest := c.params[0], c.params[1..];
    var swallowed := "\n" + PARAM_TAG + stem;
    assert c.params == [p] + rest;
    assert swallowed + CLOSE_STEM == "\n" + PARAM_TAG + (stem + CLOSE_STEM);
    if p.text + CLOSE_STEM == swallowed + CLOSE_STEM {
      Cancel(p.text, swallowed, CLOSE_STEM);
    }
    if p.text == swallowed {
      AfterMirror(p.name, rest);
      MirrorShape(stem, Tail(rest) + "\n");
      assert rest != [] ==> rest[0].name != p.name by {
        if rest != [] {
          assert c.params[0].name != c.params[1].name;
        }
      }
    }
  }

  lemma Cancel(a: string, b: string, c: string)
    requires a + c == b + c
    ensures a == b
  {
    assert (a + c)[..|a|] == a && (b + c)[..|b|] == b;
  }

  lemma MirrorShape(stem: string, more: string)
    ensures "\n" + PARAM_TAG + stem + PARAM_CLOSE + more == "\n" + (PARAM_TAG + (stem + CLOSE_STEM) + (">" + more))
  {
    assert CLOSE_STEM + ">" == PARAM_CLOSE;
    assert "\n" + PARAM_TAG + stem + PARAM_CLOSE == "\n" + PARAM_TAG + (stem + CLOSE_STEM) + ">";
    assert "\n" + PARAM_TAG + (stem + CLOSE_STEM) + ">" + more
      == "\n" + (PARAM_TAG + (stem + CLOSE_STEM) + (">" + more));
  }

  lemma FirstShape(p: Param, tail: string)
    ensures "\n" + (PrintParam(p) + tail) + "\n"
      == "\n" + PARAM_TAG + (p.name + ">") + p.text + PARAM_CLOSE + (tail + "\n")
  {
    assert PrintParam(p) == PARAM_TAG + (p.name + ">") + p.text + PARAM_CLOSE;
    Nest(PARAM_TAG, p.name + ">", p.text, PARAM_CLOSE);
    Nest("\n" + PARAM_TAG, p.name + ">", p.text, PARAM_CLOSE);
    Nest("\n", PARAM_TAG, p.name + ">", p.text + PARAM_CLOSE);
    assert "\n" + (PrintParam(p) + tail) + "\n" == "\n" + PrintParam(p) + (tail + "\n");
  }

  lemma CloseChars()
    ensures '/' in PARAM_CLOSE && '/' !in "\n" + PARAM_TAG
    ensures '=' !in PARAM_CLOSE && '>' !in PARAM_CLOSE[..|PARAM_CLOSE| - 1] && '>' in PARAM_CLOSE && '=' !in CLOSE_STEM
  {
  }

  lemma BodyIff(c: Call)
    requires Clean(c) && DistinctParams(c.params)
    ensures Params(Body(c)) == c.params <==> Apart(c) || Mirrors(c)
  {
    hide Clean, Opens, Params, Body;
    if Apart(c) {
      BodyParams(c);
    } else {
      OpensIff(c);
    }
  }

  /** Parsing the printed calls gives the same calls if and only if every call is clean and its
      function name opens no parameter before a first one, or mirrors it. */
  lemma RoundTripIff(cs: seq<Call>)
    requires forall c | c in cs :: DistinctParams(c.params)
    ensures Calls(Print(cs)) == cs <==> forall c | c in cs :: Clean(c) && (Apart(c) || Mirrors(c))
  {
    hide Clean, Apart, Mirrors, Blocks, Print, Body, DistinctParams;
    if forall c | c in cs :: Clean(c) {
      BlocksBack(cs);
      BodiesBack(cs);
      forall c | c in cs
        ensures Params(Body(c)) == c.params <==> Apart(c) || Mirrors(c)
      {
        BodyIff(c);
      }
      var back := FromBlocks(Bodies(cs));
      if forall c | c in cs :: Apart(c) || Mirrors(c) {
        forall k | 0 <= k < |cs|
          ensures back[k] == cs[k]
        {
          assert cs[k] in cs;
        }
      }
      if back == cs {
        forall c | c in cs
          ensures Params(Body(c)) == c.params
        {
          var k :| 0 <= k < |cs| && cs[k] == c;
          assert back[k] == c;
        }
      }
    }
    ParsedIsClean(Print(cs));
  }

  /** `<parameter=a</parameter`, with a parameter `a</parameter` whose text is a line `<parameter=a`. */
  function MirroringCall(): Call {
    Call(PARAM_TAG + "a" + CLOSE_STEM, [Param("a" + CLOSE_STEM, "\n" + PARAM_TAG + "a")])
  }

  lemma TagChars()
    ensures '_' !in PARAM_TAG && '>' !in PARAM_TAG && PARAM_TAG != ""
  {
  }

  lemma StemChars()
    ensures '_' !in CLOSE_STEM && '>' !in CLOSE_STEM
  {
  }

  lemma JoinedChars(tag: string, stem: string)
    requires '_' !in tag && '>' !in tag && '_' !in stem && '>' !in stem && tag != ""
    ensures '_' !in tag + "a" + stem + ">" && '>' !in tag + "a" + stem
    ensures '_' !in "a" + stem + ">" && '>' !in "a" + stem
    ensures '_' !in "\n" + tag + "a" && '>' !in "\n" + tag + "a"
  {
  }

  lemma MirroringChars()
    ensures var (c, p) := (MirroringCall(), MirroringCall().params[0]);
      && '_' !in c.name + ">" && '>' !in c.name && c.name != ""
      && '_' !in p.name + ">" && '>' !in p.name && p.name != ""
      && '_' !in p.text && '>' !in p.text
  {
    TagChars();
    StemChars();
    JoinedChars(PARAM_TAG, CLOSE_STEM);
  }

  lemma MirroringIsClean()
    ensures Clean(MirroringCall())
  {
    hide Contains, MirroringCall;
    var c := MirroringCall();
    assert |c.params| == 1 by { OneParam(); }
    var p := c.params[0];
    MirroringChars();
    EndTokens();
    CloseChars();
    LacksChar(c.name + ">", END, '_');
    LacksChar(p.name + ">", END, '_');
    LacksChar(p.text, END, '_');
    LacksChar(p.text, PARAM_CLOSE, '>');
    assert forall x | x in c.params :: x == p;
  }

  lemma MirroringMirrors()
    ensures Mirrors(MirroringCall()) && !Apart(MirroringCall())
  {
    var c, p := MirroringCall(), MirroringCall().params[0];
    assert PARAM_TAG + "a</parameter" == c.name;
    assert c.name[|PARAM_TAG|..] == "a</parameter";
    assert p.text + CLOSE_STEM == "\n" + PARAM_TAG + "a" + CLOSE_STEM;
  }

  /** A call that comes back although its name opens a parameter. */
  lemma MirroringComesBack()
    ensures var c := MirroringCall(); !Apart(c) && Calls(Print([c])) == [c]
  {
    hide Clean, Mirrors, Apart, Calls, Print, MirroringCall;
    MirroringIsClean();
    MirroringMirrors();
    OneParam();
    RoundTripIff([MirroringCall()]);
  }

  lemma OneParam()
    ensures |MirroringCall().params| == 1 && DistinctParams(MirroringCall().params)
  {
  }

  // ----- as the template runs it

  function ToParam<J>(codec: Codec<J>, a: Arg<J>): Param {
    match a.value
    case Str(text) => Param(a.name, text)
    case Json(j) => Param(a.name, codec.dumps(j))
  }

  function ToParams<J>(codec: Codec<J>, args: seq<Arg<J>>): (r: seq<Param>)
    ensures |r| == |args| && forall k | 0 <= k < |r| :: r[k] == ToParam(codec, args[k])
  {
    seq(|args|, k requires 0 <= k < |args| => ToParam(codec, args[k]))
  }

  function ToCall<J>(codec: Codec<J>, f: Function<J>): Call {
    Call(f.name, ToParams(codec, f.arguments))
  }

  function ToCalls<J>(codec: Codec<J>, fs: seq<Function<J>>): (r: seq<Call>)
    ensures |r| == |fs| && forall k | 0 <= k < |r| :: r[k] == ToCall(codec, fs[k])
  {
    seq(|fs|, k requires 0 <= k < |fs| => ToCall(codec, fs[k]))
  }

  /** The parser keeps every value as text. */
  function ToArgs<J>(ps: seq<Param>): (r: seq<Arg<J>>)
    ensures |r| == |ps| && forall k | 0 <= k < |r| :: r[k] == Arg(ps[k].name, Str(ps[k].text))
  {
    seq(|ps|, k requires 0 <= k < |ps| => Arg(ps[k].name, Str(ps[k].text)))
  }

  function ToFunction<J>(c: Call): Function<J> {
    Function(c.name, AssignAll(ToArgs(c.params)))
  }

  function ToFunctions<J>(cs: seq<Call>): (r: seq<Function<J>>)
    ensures |r| == |cs| && forall k | 0 <= k < |r| :: r[k] == ToFunction(cs[k])
  {
    seq(|cs|, k requires 0 <= k < |cs| => ToFunction(cs[k]))
  }

  /** The value that comes back: strings as they are, other values as their JSON text. */
  function AsText<J>(codec: Codec<J>, v: Value<J>): Value<J> {
    match v
    case Str(_) => v
    case Json(j) => Str(codec.dumps(j))
  }

  function AsTexts<J>(codec: Codec<J>, args: seq<Arg<J>>): (r: seq<Arg<J>>)
    ensures |r| == |args| && forall k | 0 <= k < |r| :: r[k] == Arg(args[k].name, AsText(codec, args[k].value))
  {
    seq(|args|, k requires 0 <= k < |args| => Arg(args[k].name, AsText(codec, args[k].value)))
  }

  lemma ParamsDistinct<J>(codec: Codec<J>, args: seq<Arg<J>>)
    ensures DistinctParams(ToParams(codec, args)) <==> DistinctNames(args)
  {
    var ps := ToParams(codec, args);
    assert forall k | 0 <= k < |args| :: ps[k].name == args[k].name;
  }

  /** Functions come back with the same names, parameters and order, string values exactly and
      other values as JSON text. */
  lemma FunctionsRoundTrip<J>(codec: Codec<J>, fs: seq<Function<J>>)
    requires forall f | f in fs :: DistinctNames(f.arguments) && Clean(ToCall(codec, f))
    requires forall f | f in fs :: Apart(ToCall(codec, f)) || Mirrors(ToCall(codec, f))
    ensures var back := ToFunctions<J>(Calls(Print(ToCalls(codec, fs))));
      && |back| == |fs|
      && (forall k | 0 <= k < |fs| :: back[k] == Function(fs[k].name, AsTexts(codec, fs[k].arguments)))
      && ((forall f, a | f in fs && a in f.arguments :: a.value.Str?) ==> back == fs)
  {
    hide Clean, Apart, Mirrors, Calls, Print;
    var cs := ToCalls(codec, fs);
    forall c | c in cs
      ensures DistinctParams(c.params) && Clean(c) && (Apart(c) || Mirrors(c))
    {
      var k :| 0 <= k < |fs| && cs[k] == c;
      assert fs[k] in fs;
      ParamsDistinct(codec, fs[k].arguments);
    }
    RoundTripIff(cs);
    forall k | 0 <= k < |fs|
      ensures ToFunction(cs[k]) == Function(fs[k].name, AsTexts(codec, fs[k].arguments))
      ensures (forall a | a in fs[k].arguments :: a.value.Str?) ==> AsTexts(codec, fs[k].arguments) == fs[k].arguments
    {
      assert fs[k] in fs;
      var args := fs[k].arguments;
      assert ToArgs<J>(ToParams(codec, args)) == AsTexts(codec, args);
      AssignAllDistinct(AsTexts(codec, args));
    }
  }

  /** A function has the name of its call, and as arguments the dictionary of its parameters, each
      with its exact text. */
  ghost predicate Reads<J>(c: Call, f: Function<J>) {
    && f.name == c.name
    && AreArgs(c.params, ToArgs<J>(c.params)) && Fills(ToArgs<J>(c.params), f.arguments)
  }

  ghost predicate AreArgs<J>(ps: seq<Param>, args: seq<Arg<J>>) {
    |args| == |ps| && forall k | 0 <= k < |ps| :: args[k].name == ps[k].name && args[k].value == Str(ps[k].text)
  }

  ghost predicate AllRead<J>(cs: seq<Call>, fs: seq<Function<J>>) {
    |fs| == |cs| && forall k | 0 <= k < |cs| :: Reads(cs[k], fs[k])
  }

  /** What the parser makes of the calls that it finds, whatever their texts. */
  lemma FunctionsAreRead<J>(cs: seq<Call>)
    ensures AllRead(cs, ToFunctions<J>(cs))
  {
    forall k | 0 <= k < |cs|
      ensures Reads(cs[k], ToFunction<J>(cs[k]))
    {
      var args := ToArgs<J>(cs[k].params);
      AssignAllFills(args);
      hide Fills, AssignAll;
      assert AreArgs(cs[k].params, args);
    }
  }

  method FormatToolCalls<J>(codec: Codec<J>, functions: seq<Function<J>>) returns (r: string)
    ensures r == Print(ToCalls(codec, functions))
  {
    var formatted: seq<string> := [];
    for i := 0 to |functions|
      invariant formatted == PrintCalls(ToCalls(codec, functions[..i]))
    {
      var f := functions[i];
      var parts := [FUNCTION_TAG + f.name + ">"];
      for k := 0 to |f.arguments|
        invariant parts == [FUNCTION_TAG + f.name + ">"] + Lines(ToParams(codec, f.arguments[..k]))
      {
        var a := f.arguments[k];
        var text := if a.value.Str? then a.value.text else codec.dumps(a.value.json);
        assert f.arguments[..k + 1] == f.arguments[..k] + [a];
        assert ToParams(codec, f.arguments[..k + 1]) == ToParams(codec, f.arguments[..k]) + [ToParam(codec, a)];
        parts := parts + [PARAM_TAG + a.name + ">" + text + PARAM_CLOSE];
      }
      assert f.arguments[..|f.arguments|] == f.arguments;
      parts := parts + [FUNCTION_CLOSE];
      assert functions[..i + 1] == functions[..i] + [f];
      assert ToCalls(codec, functions[..i + 1]) == ToCalls(codec, functions[..i]) + [ToCall(codec, f)];
      formatted := formatted + [START + "\n" + Join(parts) + "\n" + END];
    }
    assert functions[..|functions|] == functions;
    r := Join(formatted);
  }

  /** The functions found in a response; nothing stands for the fallback to another format. */
  method GetToolcall<J>(response: string) returns (r: Option<seq<Function<J>>>)
    ensures r == if Blocks(response) == [] then None else Some(ToFunctions(Calls(response)))
    ensures r.Some? ==> AllRead(Calls(response), r.value)
  {
    FunctionsAreRead<J>(Calls(response));
    hide AllRead;
    var blocks := Blocks(response);
    if blocks == [] {
      return None;
    }
    var functions: seq<Function<J>> := [];
    for i := 0 to |blocks|
      invariant functions == ToFunctions(FromBlocks(blocks[..i]))
    {
      FromBlocksPush(blocks[..i], blocks[i]);
      assert blocks[..i + 1] == blocks[..i] + [blocks[i]];
      var name := FindName(blocks[i]);
      if name.Some? {
        var ps := Params(blocks[i]);
        functions := functions + [Function(name.value, AssignAll(ToArgs(ps)))];
      }
    }
    assert blocks[..|blocks|] == blocks;
    r := Some(functions);
  }

  lemma {:induction false} FromBlocksPush(blocks: seq<string>, b: string)
    ensures FromBlocks(blocks + [b]) == FromBlocks(blocks) + FromBlocks([b])
  {
    hide FindName, Params;
    if blocks == [] {
      assert blocks + [b] == [b];
    } else {
      FromBlocksPush(blocks[1..], b);
      assert (blocks + [b])[1..] == blocks[1..] + [b];
    }
  }
}
