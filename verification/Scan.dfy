/** Finding delimiters in strings, leftmost first. */
module Scan {
  import opened Wrappers

  /** The text before the leftmost `p` in `s` and the text after it. */
  function Split(s: string, p: string): (r: Option<(string, string)>)
    requires p != ""
    ensures r.Some? ==> s == r.value.0 + p + r.value.1
  {
    if p <= s then Some(("", s[|p|..]))
    else if s == "" then None
    else match Split(s[1..], p)
      case None => None
      case Some(r) => Some((s[..1] + r.0, r.1))
  }

  predicate Contains(s: string, p: string)
    requires p != ""
  {
    Split(s, p).Some?
  }

  lemma SplitSome(s: string, p: string)
    requires p != ""
    ensures Split(s, p).Some? <==> Contains(s, p)
  {
  }

  lemma {:induction false} ContainsAt(s: string, p: string, i: nat)
    requires p != "" && i <= |s| && p <= s[i..]
    ensures Contains(s, p)
  {
    if !(p <= s) {
      assert s[1..][i - 1..] == s[i..];
      ContainsAt(s[1..], p, i - 1);
    }
  }

  lemma {:induction false} WhereContained(s: string, p: string) returns (i: nat)
    requires p != "" && Contains(s, p)
    ensures i <= |s| && p <= s[i..]
  {
    if p <= s {
      i := 0;
    } else {
      i := WhereContained(s[1..], p);
      i := i + 1;
    }
  }

  /** What comes before the leftmost delimiter does not contain it. */
  lemma {:induction false} SplitFirst(s: string, p: string)
    requires p != "" && Contains(s, p)
    ensures !Contains(Split(s, p).value.0, p)
  {
    if !(p <= s) {
      SplitFirst(s[1..], p);
      var before := Split(s[1..], p).value.0;
      var b := s[..1] + before;
      assert b[1..] == before;
      assert s[1..] == before + p + Split(s[1..], p).value.1;
      assert s == b + (p + Split(s[1..], p).value.1);
      assert !(p <= b);
    }
  }

  lemma AtStart(v: string, p: string, rest: string)
    requires v != "" && p != "" && p <= v + p + rest
    ensures p <= v || p[0] in p[1..]
  {
    var s := v + p + rest;
    if |p| <= |v| {
      assert p == s[..|p|] == v[..|p|];
    } else {
      assert p[|v|] == s[|v|] == p[0];
      assert p[1..][|v| - 1] == p[0];
    }
  }

  /** Text without the delimiter, closed by the delimiter, splits there. */
  lemma {:induction false} SplitClosed(v: string, p: string, rest: string)
    requires p != "" && p[0] !in p[1..] && !Contains(v, p)
    ensures Split(v + p + rest, p) == Some((v, rest))
  {
    if v == "" {
      assert v + p + rest == p + rest;
    } else {
      SplitClosed(v[1..], p, rest);
      SplitStep(v, p, rest);
    }
  }

  lemma SplitUnfolds(s: string, p: string)
    requires p != "" && s != "" && !(p <= s)
    ensures Split(s, p) ==
      match Split(s[1..], p)
      case None => None
      case Some(r) => Some((s[..1] + r.0, r.1))
  {
  }

  lemma SplitStep(v: string, p: string, rest: string)
    requires v != "" && p != "" && p[0] !in p[1..] && !(p <= v)
    requires Split(v[1..] + p + rest, p) == Some((v[1..], rest))
    ensures Split(v + p + rest, p) == Some((v, rest))
  {
    hide Split;
    var s := v + p + rest;
    if p <= s {
      AtStart(v, p, rest);
    }
    SplitUnfolds(s, p);
    assert s[1..] == v[1..] + p + rest;
    assert s[..1] + v[1..] == v;
  }

  lemma ContainsMore(a: string, x: string, b: string, p: string)
    requires p != "" && Contains(x, p)
    ensures Contains(a + x + b, p)
  {
    var i := WhereContained(x, p);
    var s := a + x + b;
    assert s[|a| + i..] == x[i..] + b;
    ContainsAt(s, p, |a| + i);
  }

  lemma HasChar(s: string, p: string, c: char)
    requires p != "" && Contains(s, p) && c in p
    ensures c in s
  {
    var i := WhereContained(s, p);
    var k :| 0 <= k < |p| && p[k] == c;
    assert s[i..][k] == c;
  }

  lemma PrefixHas(s: string, p: string, c: char)
    requires p <= s && c in p
    ensures c in s
  {
    var k :| 0 <= k < |p| && p[k] == c;
    assert s[k] == c;
  }

  lemma PartContained(a: string, b: string, p: string)
    requires p != "" && (Contains(a, p) || Contains(b, p))
    ensures Contains(a + b, p)
  {
    if Contains(a, p) {
      ContainsMore("", a, b, p);
      assert "" + a + b == a + b;
    } else {
      ContainsMore(a, b, "", p);
      assert a + b + "" == a + b;
    }
  }

  lemma FreeParts(a: string, b: string, p: string)
    requires p != "" && !Contains(a + b, p)
    ensures !Contains(a, p) && !Contains(b, p)
  {
    if Contains(a, p) || Contains(b, p) {
      PartContained(a, b, p);
    }
  }

  /** A string without one of the characters of `p` does not contain `p`. */
  lemma LacksChar(s: string, p: string, c: char)
    requires p != "" && c in p && c !in s
    ensures !Contains(s, p)
  {
    if Contains(s, p) {
      HasChar(s, p, c);
    }
  }

  /** An occurrence in a concatenation is in one part or across the border. */
  lemma JoinedAt(a: string, b: string, p: string)
    requires p != "" && Contains(a + b, p)
    ensures || Contains(a, p) || Contains(b, p)
            || (a != "" && b != "" && a[|a| - 1] in p[..|p| - 1] && b[0] in p[1..])
  {
    var s := a + b;
    var i := WhereContained(s, p);
    if i >= |a| {
      assert s[i..] == b[i - |a|..];
      ContainsAt(b, p, i - |a|);
    } else if i + |p| <= |a| {
      assert p == s[i..][..|p|] == a[i..][..|p|];
      ContainsAt(a, p, i);
    } else {
      var k := |a| - i;
      assert p[k - 1] == s[i..][k - 1] == a[|a| - 1];
      assert p[k] == s[i..][k] == b[0];
      assert p[..|p| - 1][k - 1] == p[k - 1] && p[1..][k - 1] == p[k];
    }
  }

  /** A delimiter cannot lie across the border of two strings when the first ends, or the second
      begins, with a character that the delimiter has not there. */
  lemma Joined(a: string, b: string, p: string)
    requires p != "" && !Contains(a, p) && !Contains(b, p)
    requires a == "" || b == "" || a[|a| - 1] !in p[..|p| - 1] || b[0] !in p[1..]
    ensures !Contains(a + b, p)
  {
    if Contains(a + b, p) {
      JoinedAt(a, b, p);
    }
  }

  // ----- character classes

  /** The characters that `\s` matches. */
  predicate IsSpace(c: char) {
    var n := c as int;
    9 <= n <= 13 || 28 <= n <= 32 || n == 0x85 || n == 0xA0 || n == 0x1680 || 0x2000 <= n <= 0x200A
    || n == 0x2028 || n == 0x2029 || n == 0x202F || n == 0x205F || n == 0x3000
  }

  /** One by one: tab to carriage return, the separators up to the space, and the spaces of Unicode. */
  lemma SpacesAre(c: char)
    ensures IsSpace(c) <==>
            c as int in {
              9, 10, 11, 12, 13, 28, 29, 30, 31, 32, 0x85, 0xA0, 0x1680,
              0x2000, 0x2001, 0x2002, 0x2003, 0x2004, 0x2005, 0x2006, 0x2007, 0x2008, 0x2009, 0x200A,
              0x2028, 0x2029, 0x202F, 0x205F, 0x3000}
  {
  }

  function SkipSpace(s: string): (r: string)
    ensures |r| <= |s|
  {
    if s != "" && IsSpace(s[0]) then SkipSpace(s[1..]) else s
  }

  function DropSpace(s: string): string {
    if s != "" && IsSpace(s[|s| - 1]) then DropSpace(s[..|s| - 1]) else s
  }

  function Strip(s: string): string {
    DropSpace(SkipSpace(s))
  }

  /** One or more spaces. */
  function Spaces(s: string): Option<string> {
    if s != "" && IsSpace(s[0]) then Some(SkipSpace(s)) else None
  }

  function Literal(s: string, p: string): Option<string> {
    if p <= s then Some(s[|p|..]) else None
  }

  lemma LiteralOf(p: string, rest: string)
    ensures Literal(p + rest, p) == Some(rest)
  {
  }

  lemma IsLiteral(s: string, p: string)
    requires Literal(s, p).Some?
    ensures s == p + Literal(s, p).value
  {
  }

  /** One or more characters other than `stop`, and what follows. */
  function Until(s: string, stop: char): (r: Option<(string, string)>)
    ensures r.Some? ==> r.value.0 != "" && stop !in r.value.0 && s == r.value.0 + r.value.1
  {
    var n := Length(s, stop);
    if n == 0 then None else Some((s[..n], s[n..]))
  }

  function Length(s: string, stop: char): (n: nat)
    ensures n <= |s| && stop !in s[..n]
    ensures n < |s| ==> s[n] == stop
  {
    if s == "" || s[0] == stop then 0 else 1 + Length(s[1..], stop)
  }

  lemma {:induction false} UntilStop(name: string, stop: char, rest: string)
    requires stop !in name && rest != "" && rest[0] == stop
    ensures Length(name + rest, stop) == |name|
    ensures name != "" ==> Until(name + rest, stop) == Some((name, rest))
  {
    if name == "" {
      assert name + rest == rest;
    } else {
      UntilStop(name[1..], stop, rest);
      assert (name + rest)[1..] == name[1..] + rest;
    }
  }

  lemma NoSpaces(s: string)
    requires s == "" || (!IsSpace(s[0]) && !IsSpace(s[|s| - 1]))
    ensures Strip(s) == s && Strip("\n" + s + "\n") == s
  {
    var t := "\n" + s + "\n";
    assert t[1..] == s + "\n";
    if s == "" {
      assert SkipSpace(t) == SkipSpace("\n") == "";
    } else {
      assert SkipSpace(t) == SkipSpace(s + "\n") == s + "\n";
      assert (s + "\n")[..|s|] == s;
    }
  }

  lemma StripInside(s: string) returns (a: string, b: string)
    ensures s == a + Strip(s) + b
  {
    var rest := SkipSpace(s);
    var n := SkipIsSuffix(s);
    var k := DropIsPrefix(rest);
    a, b := s[..n], rest[k..];
    assert s == s[..n] + s[n..];
    assert rest == rest[..k] + rest[k..];
  }

  lemma {:induction false} SkipIsSuffix(s: string) returns (n: nat)
    ensures n <= |s| && SkipSpace(s) == s[n..]
  {
    if s != "" && IsSpace(s[0]) {
      n := SkipIsSuffix(s[1..]);
      n := n + 1;
    } else {
      n := 0;
    }
  }

  lemma {:induction false} DropIsPrefix(s: string) returns (k: nat)
    ensures k <= |s| && DropSpace(s) == s[..k]
  {
    if s != "" && IsSpace(s[|s| - 1]) {
      k := DropIsPrefix(s[..|s| - 1]);
    } else {
      k := |s|;
    }
  }

  // ----- joining with newlines

  function Join(parts: seq<string>): string {
    if parts == [] then "" else if |parts| == 1 then parts[0] else parts[0] + "\n" + Join(parts[1..])
  }

  lemma JoinMore(x: string, xs: seq<string>)
    ensures Join([x] + xs) == if xs == [] then x else x + "\n" + Join(xs)
  {
    assert ([x] + xs)[1..] == xs;
  }
}
