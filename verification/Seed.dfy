/** The Seed form of tool calls: its printer, and its parser as the leftmost matches of three
    patterns. */
module Seed {
  import opened Scan
  import opened Wrappers

  const START: string := "<seed:tool_call>"
  const END: string := "</seed:tool_call>"
  const FUNCTION_TAG: string := "<function="
  const FUNCTION_CLOSE: string := "</function>"
  const PARAM_TAG: string := "<parameter="
  const PARAM_CLOSE: string := "</parameter>"
  const CLOSE_STEM: string := "</parameter"

  datatype Param = Param(name: string, text: string)

  datatype Call = Call(name: string, params: seq<Param>)

  // ----- the printer

  function PrintParam(p: Param): string {
    PARAM_TAG + p.name + ">" + p.text + PARAM_CLOSE
  }

  function Lines(ps: seq<Param>): (r: seq<string>)
    ensures |r| == |ps|
  {
    seq(|ps|, k requires 0 <= k < |ps| => PrintParam(ps[k]))
  }

  function Inner(c: Call): string {
    Join([FUNCTION_TAG + c.name + ">"] + Lines(c.params) + [FUNCTION_CLOSE])
  }

  function PrintCall(c: Call): string {
    START + "\n" + Inner(c) + "\n" + END
  }

  function PrintCalls(cs: seq<Call>): (r: seq<string>)
    ensures |r| == |cs|
  {
    seq(|cs|, k requires 0 <= k < |cs| => PrintCall(cs[k]))
  }

  function Print(cs: seq<Call>): string {
    Join(PrintCalls(cs))
  }

  // ----- the parser

  function MatchParam(s: string): (r: Option<(Param, string)>)
    ensures r.Some? ==> |r.value.1| < |s|
  {
    var s1 :- Literal(s, PARAM_TAG);
    var (name, s2) :- Until(s1, '>');
    var s3 :- Literal(s2, ">");
    var (text, rest) :- Split(s3, PARAM_CLOSE);
    Some((Param(name, text), rest))
  }

  function Params(s: string): seq<Param>
    decreases |s|
  {
    if s == "" then []
    else match MatchParam(s)
      case None => Params(s[1..])
      case Some(m) => [m.0] + Params(m.1)
  }

  function MatchName(s: string): Option<string> {
    var s1 :- Literal(s, FUNCTION_TAG);
    var (name, s2) :- Until(s1, '>');
    var _ :- Literal(s2, ">");
    Some(name)
  }

  /** The leftmost function name. */
  function FindName(s: string): Option<string> {
    if s == "" then None
    else match MatchName(s)
      case Some(name) => Some(name)
      case None => FindName(s[1..])
  }

  /** A tool call block at the start of `s`: at least one character before the closing tag. */
  function MatchBlock(s: string): (r: Option<(string, string)>)
    ensures r.Some? ==> |r.value.1| < |s|
  {
    var s1 :- Literal(s, START);
    if s1 == "" then None else
    var (more, rest) :- Split(s1[1..], END);
    Some((s1[..1] + more, rest))
  }

  function Blocks(s: string): seq<string>
    decreases |s|
  {
    if s == "" then []
    else match MatchBlock(s)
      case None => Blocks(s[1..])
      case Some(m) => [m.0] + Blocks(m.1)
  }

  /** The calls of blocks that have a function name; the others are skipped. */
  function FromBlocks(blocks: seq<string>): seq<Call> {
    if blocks == [] then []
    else (match FindName(blocks[0])
          case None => []
          case Some(name) => [Call(name, Params(blocks[0]))]) + FromBlocks(blocks[1..])
  }

  function Calls(s: string): seq<Call> {
    FromBlocks(Blocks(s))
  }

  // ----- which calls survive

  /** A name between a tag and its `>`. */
  predicate NameOk(name: string) {
    name != "" && '>' !in name && !Contains(name + ">", END)
  }

  predicate ParamOk(p: Param) {
    NameOk(p.name) && !Contains(p.text, PARAM_CLOSE) && !Contains(p.text, END)
  }

  predicate Clean(c: Call) {
    NameOk(c.name) && forall p | p in c.params :: ParamOk(p)
  }

  /** A parameter tag inside the name, with something after it. */
  predicate Opens(name: string) {
    name != "" && ((PARAM_TAG <= name && |name| > |PARAM_TAG|) || Opens(name[1..]))
  }

  /** A function name that opens a parameter would swallow the first one. */
  predicate Apart(c: Call) {
    c.params == [] || !Opens(c.name)
  }

  /** What follows the first such tag. */
  function AfterOpening(name: string): string
    requires Opens(name)
  {
    if PARAM_TAG <= name && |name| > |PARAM_TAG| then name[|PARAM_TAG|..] else AfterOpening(name[1..])
  }

  /** The one parameter is just what the parser makes of the swallowed text: its name stands after
      the tag in the function's name and holds its own closing tag, and its text is the line that
      was swallowed. */
  predicate Mirrors(c: Call) {
    && |c.params| == 1
    && Opens(c.name) && AfterOpening(c.name) == c.params[0].name
    && c.params[0].text + CLOSE_STEM == "\n" + PARAM_TAG + c.params[0].name
  }

  /** As the keys of a dictionary are. */
  ghost predicate DistinctParams(ps: seq<Param>) {
    forall i, j | 0 <= i < j < |ps| :: ps[i].name != ps[j].name
  }
}
