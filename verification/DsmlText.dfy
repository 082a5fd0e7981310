/** What the DSML parser accepts in any text: the shape of its two patterns in both directions, and
    calls that stand between other text. */
module DsmlText {
  import opened Dsml
  import opened DsmlRoundTrip
  import opened Scan
  import opened Wrappers

  /** One or more spaces of any kind. */
  ghost predicate Gap(w: string) {
    w != "" && forall k | 0 <= k < |w| :: IsSpace(w[k])
  }

  lemma {:induction false} SkipGap(w: string, rest: string)
    requires (forall k | 0 <= k < |w| :: IsSpace(w[k])) && (rest == "" || !IsSpace(rest[0]))
    ensures SkipSpace(w + rest) == rest
  {
    if w == "" {
      assert w + rest == rest;
    } else {
      assert (w + rest)[1..] == w[1..] + rest;
      SkipGap(w[1..], rest);
    }
  }

  lemma SpacesOf(w: string, rest: string)
    requires Gap(w) && (rest == "" || !IsSpace(rest[0]))
    ensures Spaces(w + rest) == Some(rest)
  {
    SkipGap(w, rest);
  }

  lemma {:induction false} SkippedAreSpaces(s: string) returns (w: string)
    ensures s == w + SkipSpace(s) && forall k | 0 <= k < |w| :: IsSpace(w[k])
    ensures Spaces(s).Some? <==> w != ""
  {
    if s != "" && IsSpace(s[0]) {
      var more := SkippedAreSpaces(s[1..]);
      w := s[..1] + more;
    } else {
      w := "";
    }
  }

  lemma GapOf(s: string) returns (w: string)
    requires Spaces(s).Some?
    ensures Gap(w) && s == w + Spaces(s).value
  {
    w := SkippedAreSpaces(s);
  }

  // ----- parameters

  /** A parameter as it may be written: with any gaps between the attributes. */
  function ParamText(w1: string, w2: string, p: Param): string {
    PARAM_TAG + (w1 + ("name=\"" + (p.name + ("\"" + (w2 + ("string=\"" + (Flag(p.isString) + ("\">" +
      (p.text + PARAM_CLOSE)))))))))
  }

  function ParamThen(w1: string, w2: string, p: Param, rest: string): string {
    PARAM_TAG + (w1 + ("name=\"" + (p.name + ("\"" + (w2 + ("string=\"" + (Flag(p.isString) + ("\">" +
      (p.text + PARAM_CLOSE + rest)))))))))
  }

  lemma ParamIsThen(w1: string, w2: string, p: Param, rest: string)
    ensures ParamText(w1, w2, p) + rest == ParamThen(w1, w2, p, rest)
  {
    hide Flag;
    var t9, f := p.text + PARAM_CLOSE, Flag(p.isString);
    var t8 := "\">" + t9;
    var t7 := f + t8;
    var t6 := "string=\"" + t7;
    var t5 := w2 + t6;
    var t4 := "\"" + t5;
    var t3 := p.name + t4;
    var t2 := "name=\"" + t3;
    var t1 := w1 + t2;
    Assoc("\">", t9, rest);
    Assoc(f, t8, rest);
    Assoc("string=\"", t7, rest);
    Assoc(w2, t6, rest);
    Assoc("\"", t5, rest);
    Assoc(p.name, t4, rest);
    Assoc("name=\"", t3, rest);
    Assoc(w1, t2, rest);
    Assoc(PARAM_TAG, t1, rest);
  }

  /** The pattern accepts every such text, whatever follows: any name without quotes, and any text up
      to the first closing tag. */
  lemma ParamAccepted(w1: string, w2: string, p: Param, rest: string)
    requires Gap(w1) && Gap(w2) && NameOk(p.name) && !Contains(p.text, PARAM_CLOSE)
    ensures MatchParam(ParamText(w1, w2, p) + rest) == Some((p, rest))
  {
    ParamIsThen(w1, w2, p, rest);
    hide Literal, Spaces, Until, MatchFlag, Split, IsSpace, Flag, Contains, ParamText, Gap;
    Tokens();
    Letters();
    var s9 := p.text + PARAM_CLOSE + rest;
    var s8 := "\">" + s9;
    var s7 := Flag(p.isString) + s8;
    var s6 := "string=\"" + s7;
    var s5 := w2 + s6;
    var s4 := "\"" + s5;
    var s3 := p.name + s4;
    var s2 := "name=\"" + s3;
    LiteralOf(PARAM_TAG, w1 + s2);
    SpacesOf(w1, s2);
    LiteralOf("name=\"", s3);
    UntilStop(p.name, '"', s4);
    LiteralOf("\"", s5);
    SpacesOf(w2, s6);
    LiteralOf("string=\"", s7);
    FlagOf(p.isString, s8);
    LiteralOf("\">", s9);
    SplitClosed(p.text, PARAM_CLOSE, rest);
  }

  /** And it accepts nothing else. */
  lemma AcceptedParam(s: string) returns (w1: string, w2: string)
    requires MatchParam(s).Some?
    ensures var (p, rest) := MatchParam(s).value;
      && Gap(w1) && Gap(w2) && NameOk(p.name) && !Contains(p.text, PARAM_CLOSE)
      && s == ParamText(w1, w2, p) + rest
  {
    hide Literal, Spaces, Until, MatchFlag, Split, Contains, Gap, ParamText;
    Tokens();
    IsLiteral(s, PARAM_TAG);
    var s1 := Literal(s, PARAM_TAG).value;
    w1 := GapOf(s1);
    var s2 := Spaces(s1).value;
    IsLiteral(s2, "name=\"");
    var s3 := Literal(s2, "name=\"").value;
    var (name, s4) := Until(s3, '"').value;
    IsLiteral(s4, "\"");
    var s5 := Literal(s4, "\"").value;
    w2 := GapOf(s5);
    var s6 := Spaces(s5).value;
    IsLiteral(s6, "string=\"");
    var s7 := Literal(s6, "string=\"").value;
    var (isString, s8) := MatchFlag(s7).value;
    IsLiteral(s8, "\">");
    var s9 := Literal(s8, "\">").value;
    SplitSome(s9, PARAM_CLOSE);
    SplitFirst(s9, PARAM_CLOSE);
    var (text, rest) := Split(s9, PARAM_CLOSE).value;
    ParamIsThen(w1, w2, Param(name, isString, text), rest);
  }

  // ----- invocations

  /** An invocation as it may be written: with any gap before the name and any body. */
  function CallText(w: string, name: string, body: string, rest: string): string {
    INVOKE_TAG + (w + ("name=\"" + (name + ("\">" + (body + INVOKE_CLOSE + rest)))))
  }

  lemma CallAccepted(w: string, name: string, body: string, rest: string)
    requires Gap(w) && NameOk(name) && !Contains(body, INVOKE_CLOSE)
    ensures MatchCall(CallText(w, name, body, rest)) == Some((Call(name, Params(Strip(body))), rest))
  {
    hide Literal, Spaces, Until, Split, IsSpace, Contains, Strip, Params, Gap;
    Tokens();
    Letters();
    var s5 := body + INVOKE_CLOSE + rest;
    var s4 := "\">" + s5;
    var s3 := name + s4;
    var s2 := "name=\"" + s3;
    LiteralOf(INVOKE_TAG, w + s2);
    SpacesOf(w, s2);
    LiteralOf("name=\"", s3);
    UntilStop(name, '"', s4);
    LiteralOf("\">", s5);
    SplitClosed(body, INVOKE_CLOSE, rest);
  }

  lemma AcceptedCall(s: string) returns (w: string, body: string)
    requires MatchCall(s).Some?
    ensures var (c, rest) := MatchCall(s).value;
      && Gap(w) && NameOk(c.name) && !Contains(body, INVOKE_CLOSE)
      && c.params == Params(Strip(body)) && s == CallText(w, c.name, body, rest)
  {
    hide Literal, Spaces, Until, Split, Contains, Strip, Params, Gap;
    Tokens();
    IsLiteral(s, INVOKE_TAG);
    var s1 := Literal(s, INVOKE_TAG).value;
    w := GapOf(s1);
    var s2 := Spaces(s1).value;
    IsLiteral(s2, "name=\"");
    var s3 := Literal(s2, "name=\"").value;
    var (name, s4) := Until(s3, '"').value;
    IsLiteral(s4, "\">");
    var s5 := Literal(s4, "\">").value;
    SplitSome(s5, INVOKE_CLOSE);
    SplitFirst(s5, INVOKE_CLOSE);
    body := Split(s5, INVOKE_CLOSE).value.0;
  }

  // ----- calls between other text

  lemma TagNotYet(a: string, rest: string)
    requires a != "" && !Contains(a, INVOKE_TAG) && rest != "" && rest[0] == '<'
    ensures !(INVOKE_TAG <= a + rest)
  {
    assert !(INVOKE_TAG <= a);
    var s := a + rest;
    if |INVOKE_TAG| <= |a| {
      assert s[..|INVOKE_TAG|] == a[..|INVOKE_TAG|];
    } else {
      OnlyFirst();
      assert s[|a|] == '<';
    }
  }

  lemma OnlyFirst()
    ensures forall k | 1 <= k < |INVOKE_TAG| :: INVOKE_TAG[k] != '<'
  {
  }

  lemma {:induction false} TextSkipped(a: string, rest: string)
    requires !Contains(a, INVOKE_TAG) && rest != "" && rest[0] == '<'
    ensures Calls(a + rest) == Calls(rest)
  {
    if a == "" {
      assert a + rest == rest;
    } else {
      TagNotYet(a, rest);
      Tokens();
      assert MatchCall(a + rest) == None;
      assert (a + rest)[1..] == a[1..] + rest;
      assert a == a[..1] + a[1..];
      FreeParts(a[..1], a[1..], INVOKE_TAG);
      TextSkipped(a[1..], rest);
    }
  }

  /** Printed calls are found wherever they stand, between texts in which no invocation begins. */
  lemma CallsInText(before: string, cs: seq<Call>, after: string)
    requires forall c | c in cs :: Printable(c)
    requires !Contains(before, INVOKE_TAG) && !Contains(after, INVOKE_TAG)
    ensures Calls(before + Print(cs) + after) == cs
  {
    hide Contains, Printable, Calls, PrintCalls;
    var tail := CALLS_CLOSE + after;
    var rest := Join(PrintCalls(cs)) + "\n" + tail;
    TailFree(after);
    CallsThen(cs, tail);
    OpeningSkipped(rest);
    var text := CALLS_OPEN + "\n" + rest;
    assert Print(cs) + after == text;
    assert before + Print(cs) + after == before + text;
    OpensWithTag(rest);
    TextSkipped(before, text);
  }

  lemma OpensWithTag(rest: string)
    ensures CALLS_OPEN + "\n" + rest != "" && (CALLS_OPEN + "\n" + rest)[0] == '<'
  {
  }

  lemma TailFree(after: string)
    requires !Contains(after, INVOKE_TAG)
    ensures !Contains("\n" + (CALLS_CLOSE + after), INVOKE_TAG)
  {
    hide Contains;
    Tokens();
    CloseEnds();
    LacksChar("\n", INVOKE_TAG, 'k');
    LacksChar(CALLS_CLOSE, INVOKE_TAG, 'k');
    Joined(CALLS_CLOSE, after, INVOKE_TAG);
    Joined("\n", CALLS_CLOSE + after, INVOKE_TAG);
  }

  lemma CloseEnds()
    ensures CALLS_CLOSE[|CALLS_CLOSE| - 1] !in INVOKE_TAG && '\n' !in INVOKE_TAG
  {
  }
}
