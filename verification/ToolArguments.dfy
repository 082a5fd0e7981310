/** The functions that tool calls ask for, and the dictionary of their arguments. */
module ToolArguments {
  import opened Wrappers

  /** A value of an argument: a string or another JSON value. */
  datatype Value<+J> = Str(text: string) | Json(json: J)

  datatype Arg<+J> = Arg(name: string, value: Value<J>)

  datatype Function<+J> = Function(name: string, arguments: seq<Arg<J>>)

  ghost predicate DistinctNames<J>(args: seq<Arg<J>>) {
    forall i, j | 0 <= i < j < |args| :: args[i].name != args[j].name
  }

  /** Assigning to a dictionary: in place for a known key, at the end for a new one. */
  function Assign<J>(args: seq<Arg<J>>, a: Arg<J>): seq<Arg<J>> {
    if args == [] then [a]
    else if args[0].name == a.name then [a] + args[1..]
    else [args[0]] + Assign(args[1..], a)
  }

  function AssignAll<J>(args: seq<Arg<J>>): seq<Arg<J>> {
    if args == [] then [] else Assign(AssignAll(args[..|args| - 1]), args[|args| - 1])
  }

  lemma {:induction false} AssignNew<J>(args: seq<Arg<J>>, a: Arg<J>)
    requires forall i | 0 <= i < |args| :: args[i].name != a.name
    ensures Assign(args, a) == args + [a]
  {
    if args != [] {
      AssignNew(args[1..], a);
      assert args == [args[0]] + args[1..];
    }
  }

  lemma {:induction false} AssignAllDistinct<J>(args: seq<Arg<J>>)
    requires DistinctNames(args)
    ensures AssignAll(args) == args
  {
    if args != [] {
      var n := |args| - 1;
      AssignAllDistinct(args[..n]);
      AssignNew(args[..n], args[n]);
      assert args == args[..n] + [args[n]];
    }
  }

  /** Each name once, in the order in which they come first. */
  function NamesOnce<J>(args: seq<Arg<J>>): (r: seq<string>)
    ensures forall k | 0 <= k < |args| :: args[k].name in r
    ensures forall x, y | 0 <= x < y < |r| :: r[x] != r[y]
  {
    if args == [] then [] else
    var r, name := NamesOnce(args[..|args| - 1]), args[|args| - 1].name;
    if name in r then r else r + [name]
  }

  /** The value that comes last under a name. */
  function LastValue<J>(args: seq<Arg<J>>, name: string): Option<Value<J>> {
    if args == [] then None
    else if args[|args| - 1].name == name then Some(args[|args| - 1].value)
    else LastValue(args[..|args| - 1], name)
  }

  /** The dictionary that assigning the arguments one after another leaves. */
  ghost predicate Fills<J>(args: seq<Arg<J>>, d: seq<Arg<J>>) {
    && |d| == |NamesOnce(args)|
    && (forall x | 0 <= x < |d| :: d[x].name == NamesOnce(args)[x] && LastValue(args, d[x].name) == Some(d[x].value))
  }

  lemma {:induction false} AssignAt<J>(d: seq<Arg<J>>, a: Arg<J>, k: nat)
    requires k <= |d| && (k < |d| ==> d[k].name == a.name) && forall x | 0 <= x < k :: d[x].name != a.name
    ensures Assign(d, a) == if k < |d| then d[k := a] else d + [a]
  {
    if k > 0 {
      AssignAt(d[1..], a, k - 1);
      assert d == [d[0]] + d[1..];
    }
  }

  lemma NamesMore<J>(args: seq<Arg<J>>, a: Arg<J>)
    ensures NamesOnce(args + [a]) == if a.name in NamesOnce(args) then NamesOnce(args) else NamesOnce(args) + [a.name]
    ensures forall name ::
              LastValue(args + [a], name) == if name == a.name then Some(a.value) else LastValue(args, name)
  {
    assert (args + [a])[..|args|] == args;
  }

  lemma FillsReplaced<J>(args: seq<Arg<J>>, d: seq<Arg<J>>, a: Arg<J>, k: nat)
    requires Fills(args, d) && k < |d| && d[k].name == a.name
    ensures Fills(args + [a], d[k := a])
  {
    NamesMore(args, a);
    hide NamesOnce, LastValue;
    var d', names := d[k := a], NamesOnce(args);
    assert names[k] == a.name;
    forall x | 0 <= x < |d'|
      ensures d'[x].name == names[x] && LastValue(args + [a], d'[x].name) == Some(d'[x].value)
    {
      assert d[x].name == names[x] && (x != k ==> names[x] != names[k]);
    }
  }

  lemma FillsAppended<J>(args: seq<Arg<J>>, d: seq<Arg<J>>, a: Arg<J>)
    requires Fills(args, d) && forall x | 0 <= x < |d| :: d[x].name != a.name
    ensures Fills(args + [a], d + [a])
  {
    NamesMore(args, a);
    hide NamesOnce, LastValue;
    var d', names := d + [a], NamesOnce(args);
    assert forall k | 0 <= k < |names| :: d[k].name == names[k];
    forall x | 0 <= x < |d'|
      ensures d'[x].name == (names + [a.name])[x] && LastValue(args + [a], d'[x].name) == Some(d'[x].value)
    {
      if x < |d| {
        assert d[x].name == names[x];
      }
    }
  }

  function FirstOf<J>(args: seq<Arg<J>>, name: string): (r: nat)
    ensures r <= |args| && (r < |args| ==> args[r].name == name)
    ensures forall k | 0 <= k < r :: args[k].name != name
  {
    if args == [] || args[0].name == name then 0 else 1 + FirstOf(args[1..], name)
  }

  lemma AssignedFills<J>(args: seq<Arg<J>>, d: seq<Arg<J>>, a: Arg<J>)
    requires Fills(args, d)
    ensures Fills(args + [a], Assign(d, a))
  {
    var k := FirstOf(d, a.name);
    AssignAt(d, a, k);
    hide Fills, Assign;
    if k < |d| {
      FillsReplaced(args, d, a, k);
    } else {
      FillsAppended(args, d, a);
    }
  }

  /** Assigning the arguments one after another: each name once, where it came first, with the value
      that came last. */
  lemma {:induction false} AssignAllFills<J>(args: seq<Arg<J>>)
    ensures Fills(args, AssignAll(args))
  {
    if args != [] {
      var n := |args| - 1;
      AssignAllFills(args[..n]);
      AssignedFills(args[..n], AssignAll(args[..n]), args[n]);
      assert args == args[..n] + [args[n]];
    }
  }

  /** Printing and parsing JSON, as the template uses it. */
  datatype Codec<!J> = Codec(dumps: J -> string, loads: string -> Option<Value<J>>)
}
