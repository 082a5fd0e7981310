/** What the Seed parser accepts in any text: the shape of its patterns in both directions, and calls
    that stand between other text. */
module SeedText {
  import opened Scan
  import opened Seed
  import opened SeedRoundTrip
  import opened Wrappers

  // ----- the patterns

  /** A parameter is accepted whatever follows: any name without `>`, and any text up to the first
      closing tag. */
  lemma ParamAccepted(p: Param, rest: string)
    requires p.name != "" && '>' !in p.name && !Contains(p.text, PARAM_CLOSE)
    ensures MatchParam(PARAM_TAG + (p.name + (">" + (p.text + PARAM_CLOSE + rest)))) == Some((p, rest))
  {
    hide Literal, Until, Split, Contains;
    Tokens();
    var s3 := p.text + PARAM_CLOSE + rest;
    var s2 := ">" + s3;
    LiteralOf(PARAM_TAG, p.name + s2);
    UntilStop(p.name, '>', s2);
    LiteralOf(">", s3);
    SplitClosed(p.text, PARAM_CLOSE, rest);
  }

  /** And nothing else is. */
  lemma AcceptedParam(s: string)
    requires MatchParam(s).Some?
    ensures var (p, rest) := MatchParam(s).value;
      && p.name != "" && '>' !in p.name && !Contains(p.text, PARAM_CLOSE)
      && s == PARAM_TAG + (p.name + (">" + (p.text + PARAM_CLOSE + rest)))
  {
    hide Literal, Until, Split, Contains;
    Tokens();
    IsLiteral(s, PARAM_TAG);
    IsLiteral(Until(Literal(s, PARAM_TAG).value, '>').value.1, ">");
    var s3 := Literal(Until(Literal(s, PARAM_TAG).value, '>').value.1, ">").value;
    SplitSome(s3, PARAM_CLOSE);
    SplitFirst(s3, PARAM_CLOSE);
  }

  /** A block has at least one character before its closing tag, and ends at the first one after. */
  lemma BlockAccepted(block: string, rest: string)
    requires block != "" && !Contains(block[1..], END)
    ensures MatchBlock(START + (block + END + rest)) == Some((block, rest))
  {
    hide Literal, Split, Contains;
    EndTokens();
    var s1 := block + END + rest;
    LiteralOf(START, s1);
    assert s1[1..] == block[1..] + END + rest;
    SplitClosed(block[1..], END, rest);
    assert s1[..1] + block[1..] == block;
  }

  lemma AcceptedBlock(s: string)
    requires MatchBlock(s).Some?
    ensures var (block, rest) := MatchBlock(s).value;
      block != "" && !Contains(block[1..], END) && s == START + (block + END + rest)
  {
    hide Literal, Split, Contains;
    EndTokens();
    IsLiteral(s, START);
    var s1 := Literal(s, START).value;
    SplitSome(s1[1..], END);
    SplitFirst(s1[1..], END);
    var (more, rest) := Split(s1[1..], END).value;
    FirstApart(s1, more, END, rest);
  }

  lemma FirstApart(s: string, more: string, e: string, rest: string)
    requires s != "" && s[1..] == more + e + rest
    ensures s == s[..1] + more + e + rest && (s[..1] + more)[1..] == more
  {
    assert s == s[..1] + s[1..];
    assert s[..1] + (more + e + rest) == s[..1] + more + e + rest;
  }

  // ----- calls between other text

  /** Text in which no call begins has no blocks. */
  lemma {:induction false} NoCalls(s: string)
    requires !Contains(s, START)
    ensures Blocks(s) == []
  {
    if s != "" {
      StartChars();
      assert s == s[..1] + s[1..];
      FreeParts(s[..1], s[1..], START);
      assert MatchBlock(s) == None;
      NoCalls(s[1..]);
    }
  }

  lemma StartChars()
    ensures START != "" && START[0] == '<' && forall k | 1 <= k < |START| :: START[k] != '<'
  {
  }

  lemma TagNotYet(a: string, rest: string)
    requires a != "" && !Contains(a, START) && rest != "" && rest[0] == '<'
    ensures !(START <= a + rest)
  {
    assert !(START <= a);
    var s := a + rest;
    StartChars();
    if |START| <= |a| {
      assert s[..|START|] == a[..|START|];
    } else {
      assert s[|a|] == '<';
    }
  }

  lemma {:induction false} TextSkipped(a: string, rest: string)
    requires !Contains(a, START) && rest != "" && rest[0] == '<'
    ensures Blocks(a + rest) == Blocks(rest)
  {
    if a == "" {
      assert a + rest == rest;
    } else {
      TagNotYet(a, rest);
      StartChars();
      assert MatchBlock(a + rest) == None;
      assert (a + rest)[1..] == a[1..] + rest;
      assert a == a[..1] + a[1..];
      FreeParts(a[..1], a[1..], START);
      TextSkipped(a[1..], rest);
    }
  }

  lemma {:induction false} BlocksThen(cs: seq<Call>, after: string)
    requires cs != [] && (forall c | c in cs :: Clean(c)) && !Contains(after, START)
    ensures Blocks(Print(cs) + after) == Bodies(cs)
  {
    hide *;
    PrintFirst(cs);
    PrintedCallNonempty(cs[0]);
    var rest := AfterFirst(cs) + after;
    assert Print(cs) + after == PrintCall(cs[0]) + rest;
    BlockMatches(cs[0], rest);
    MatchedFirst(Print(cs) + after);
    BodiesFirst(cs);
    AfterFirstIs(cs);
    if cs[1..] == [] {
      assert rest == after;
      NoCalls(after);
      NoBlocks();
    } else {
      BlocksThen(cs[1..], after);
      assert rest == "\n" + (Print(cs[1..]) + after);
      NewlineSkipped(Print(cs[1..]) + after);
    }
  }

  lemma AfterFirstIs(cs: seq<Call>)
    requires cs != []
    ensures AfterFirst(cs) == if cs[1..] == [] then "" else "\n" + Print(cs[1..])
  {
  }

  lemma PrintStarts(cs: seq<Call>)
    requires cs != []
    ensures Print(cs) != "" && Print(cs)[0] == '<'
  {
    hide Inner, Print;
    PrintFirst(cs);
    StartChars();
  }

  /** Printed calls are found wherever they stand, between texts in which no call begins: exactly as
      they are found alone. */
  lemma CallsInText(before: string, cs: seq<Call>, after: string)
    requires cs != [] && forall c | c in cs :: DistinctParams(c.params) && Clean(c)
    requires !Contains(before, START) && !Contains(after, START)
    ensures Calls(before + Print(cs) + after) == cs <==> forall c | c in cs :: Apart(c) || Mirrors(c)
  {
    hide Clean, Contains, Blocks, Print, Apart, Mirrors, FromBlocks, DistinctParams;
    assert before + Print(cs) + after == before + (Print(cs) + after);
    PrintStarts(cs);
    TextSkipped(before, Print(cs) + after);
    BlocksThen(cs, after);
    BlocksBack(cs);
    RoundTripIff(cs);
  }
}
