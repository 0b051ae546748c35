/**
 * The parts of Go's `strings` package that the bot relies on, over ASCII:
 * TrimSpace, Split, SplitN, Join, HasPrefix and ToUpper.
 */
module Text {
  import opened Wrappers

  /** The ASCII white-space characters that Go's unicode.IsSpace accepts. */
  predicate IsSpace(c: char) {
    c == ' ' || c == '\t' || c == '\n' || c == '\r' || c == '\U{000B}' || c == '\U{000C}'
  }

  /** Drops leading white space: what is removed is all space, what is kept does not start with one. */
  function TrimLeft(s: string): (r: string)
    ensures |r| <= |s| && r == s[|s| - |r|..]
    ensures r == [] || !IsSpace(r[0])
    ensures forall k :: 0 <= k < |s| - |r| ==> IsSpace(s[k])
    decreases |s|
  {
    if |s| > 0 && IsSpace(s[0]) then TrimLeft(s[1..]) else s
  }

  /** Drops trailing white space: what is removed is all space, what is kept does not end with one. */
  function TrimRight(s: string): (r: string)
    ensures |r| <= |s| && r == s[..|r|]
    ensures r == [] || !IsSpace(r[|r| - 1])
    ensures forall k :: |r| <= k < |s| ==> IsSpace(s[k])
    decreases |s|
  {
    if |s| > 0 && IsSpace(s[|s| - 1]) then TrimRight(s[..|s| - 1]) else s
  }

  /** strings.TrimSpace restricted to ASCII white space. */
  function TrimSpace(s: string): (r: string)
    ensures r == [] || (!IsSpace(r[0]) && !IsSpace(r[|r| - 1]))
  {
    TrimRight(TrimLeft(s))
  }

  /**
   * TrimSpace removes white space from the ends only: its result starts at
   * some offset k of the input, and everything before k and after the
   * result is white space.
   */
  lemma TrimSpaceSlice(s: string)
    ensures var r := TrimSpace(s);
      exists k ::
        (&& 0 <= k <= |s| && r <= s[k..]
         && (forall i :: 0 <= i < k ==> IsSpace(s[i]))
         && (forall i :: k + |r| <= i < |s| ==> IsSpace(s[i])))
  {
    var l := TrimLeft(s);
    var k := |s| - |l|;
    assert TrimSpace(s) <= s[k..];
  }

  /** Trimming a string that has already been trimmed changes nothing. */
  lemma TrimSpaceIdempotent(s: string)
    ensures TrimSpace(TrimSpace(s)) == TrimSpace(s)
  {
    var t := TrimSpace(s);
    assert TrimLeft(t) == t;
    assert TrimRight(t) == t;
  }

  /** A string that is all white space trims to the empty string, and only such a string does. */
  lemma TrimSpaceEmptyIff(s: string)
    ensures TrimSpace(s) == [] <==> forall k :: 0 <= k < |s| ==> IsSpace(s[k])
  {
    var l := TrimLeft(s);
    assert TrimRight(l) == [] ==> l == [];
  }

  /** The position of the first occurrence of `c` in `s`, if any. */
  function IndexOf(s: string, c: char): (r: Option<nat>)
    ensures r.Some? ==> r.value < |s| && s[r.value] == c && c !in s[..r.value]
    ensures r.None? ==> c !in s
    decreases |s|
  {
    if |s| == 0 then None
    else if s[0] == c then Some(0)
    else match IndexOf(s[1..], c)
      case None => None
      case Some(i) => assert s[1..][..i] == s[1..i + 1]; Some(i + 1)
  }

  /** strings.Join: the parts with `sep` between consecutive ones. */
  function Join(parts: seq<string>, sep: string): string
    decreases |parts|
  {
    if |parts| == 0 then ""
    else if |parts| == 1 then parts[0]
    else parts[0] + sep + Join(parts[1..], sep)
  }

  /**
   * strings.Split with a one-character separator: every piece is free of
   * the separator, there is always at least one piece (Split("") is [""]),
   * and joining the pieces back gives the input.
   */
  function Split(s: string, c: char): (parts: seq<string>)
    ensures |parts| >= 1
    ensures forall i :: 0 <= i < |parts| ==> c !in parts[i]
    ensures Join(parts, [c]) == s
    decreases |s|
  {
    match IndexOf(s, c)
    case None => [s]
    case Some(i) =>
      var rest := Split(s[i + 1..], c);
      assert s == s[..i] + [c] + s[i + 1..];
      [s[..i]] + rest
  }

  /**
   * strings.SplitN for n >= 1: at most n pieces, the last of which is the
   * unsplit remainder; joining the pieces back gives the input.
   */
  function SplitN(s: string, c: char, n: nat): (parts: seq<string>)
    requires n >= 1
    ensures 1 <= |parts| <= n
    ensures forall i :: 0 <= i < |parts| - 1 ==> c !in parts[i]
    ensures |parts| < n ==> c !in parts[|parts| - 1]
    ensures Join(parts, [c]) == s
    decreases n
  {
    if n == 1 then [s]
    else match IndexOf(s, c)
      case None => [s]
      case Some(i) =>
        var rest := SplitN(s[i + 1..], c, n - 1);
        assert s == s[..i] + [c] + s[i + 1..];
        [s[..i]] + rest
  }

  /**
   * Three or more pieces from Split exactly when the string has the shape
   * a + c + b + c + rest with a and b free of c; the pieces after the
   * second are then the pieces of rest.
   */
  lemma SplitThree(s: string, c: char)
    ensures |Split(s, c)| >= 3 <==>
      exists a, b, rest :: c !in a && c !in b && s == a + [c] + b + [c] + rest
    ensures |Split(s, c)| >= 3 ==>
      var p := Split(s, c);
      s == p[0] + [c] + p[1] + [c] + Join(p[2..], [c])
  {
    var p := Split(s, c);
    if |p| >= 3 {
      SplitThreeShape(s, c);
      assert c !in p[0] && c !in p[1];
    }
    if exists a, b, rest :: c !in a && c !in b && s == a + [c] + b + [c] + rest {
      var a, b, rest :| c !in a && c !in b && s == a + [c] + b + [c] + rest;
      SplitThreeOfShape(a, c, b, rest);
    }
  }

  /** The backward half of SplitThree: a + c + b + c + rest splits into a, b and the pieces of rest. */
  lemma SplitThreeOfShape(a: string, c: char, b: string, rest: string)
    requires c !in a && c !in b
    ensures Split(a + [c] + b + [c] + rest, c) == [a, b] + Split(rest, c)
  {
    var t := b + [c] + rest;
    assert a + [c] + b + [c] + rest == a + [c] + t;
    SplitAt(a + [c] + t, c, a, t);
    SplitAt(t, c, b, rest);
  }

  /** The forward half of SplitThree: the first two pieces, each followed by the separator, then the rest. */
  lemma SplitThreeShape(s: string, c: char)
    requires |Split(s, c)| >= 3
    ensures var p := Split(s, c); s == p[0] + [c] + p[1] + [c] + Join(p[2..], [c])
  {
    var p := Split(s, c);
    assert p[1..][1..] == p[2..];
    assert Join(p[1..], [c]) == p[1] + [c] + Join(p[2..], [c]);
  }

  /** Splitting a + c + t, with a free of c, gives a followed by the pieces of t. */
  lemma SplitAt(s: string, c: char, a: string, t: string)
    requires c !in a && s == a + [c] + t
    ensures Split(s, c) == [a] + Split(t, c)
  {
    var i := |a|;
    assert s[i] == c;
    assert s[..i] == a;
    assert s[i + 1..] == t;
    assert IndexOf(s, c) == Some(i);
  }

  /** The same for SplitN with room for more than one piece. */
  lemma SplitNAt(s: string, c: char, n: nat, a: string, t: string)
    requires n >= 2 && c !in a && s == a + [c] + t
    ensures SplitN(s, c, n) == [a] + SplitN(t, c, n - 1)
  {
    var i := |a|;
    assert s[i] == c;
    assert s[..i] == a;
    assert s[i + 1..] == t;
    assert IndexOf(s, c) == Some(i);
  }

  /** Split gives a single piece exactly when the separator does not occur. */
  lemma SplitSingle(s: string, c: char)
    ensures |Split(s, c)| == 1 <==> c !in s
  {
    if c in s {
      var i := IndexOf(s, c).value;
      assert Split(s, c) == [s[..i]] + Split(s[i + 1..], c);
    }
  }

  /** The same for SplitN with room for more than one piece. */
  lemma SplitNSingle(s: string, c: char, n: nat)
    requires n >= 2
    ensures |SplitN(s, c, n)| == 1 <==> c !in s
  {
    if c in s {
      var i := IndexOf(s, c).value;
      assert SplitN(s, c, n) == [s[..i]] + SplitN(s[i + 1..], c, n - 1);
    }
  }

  /** Splitting a + c + b, with neither part holding c, gives exactly the two parts. */
  lemma SplitTwo(a: string, c: char, b: string)
    requires c !in a && c !in b
    ensures Split(a + [c] + b, c) == [a, b]
  {
    SplitAt(a + [c] + b, c, a, b);
    SplitSingle(b, c);
  }

  /** A string that neither starts nor ends with white space is its own TrimSpace. */
  lemma TrimSpaceKeeps(s: string)
    requires s != [] && !IsSpace(s[0]) && !IsSpace(s[|s| - 1])
    ensures TrimSpace(s) == s
  {
    var l := TrimLeft(s);
    assert l == s;
  }

  /** strings.HasPrefix. */
  predicate HasPrefix(s: string, prefix: string) {
    |prefix| <= |s| && s[..|prefix|] == prefix
  }

  /** ASCII upper-casing of one character. */
  function UpperChar(c: char): (u: char)
    ensures 'a' <= c <= 'z' ==> u as int == c as int - 32
    ensures !('a' <= c <= 'z') ==> u == c
    ensures !('a' <= u <= 'z')
  {
    if 'a' <= c <= 'z' then (c as int - 32) as char else c
  }

  /** strings.ToUpper over ASCII, character by character. */
  function ToUpper(s: string): (r: string)
    ensures |r| == |s|
    ensures forall i :: 0 <= i < |s| ==> r[i] == UpperChar(s[i])
  {
    seq(|s|, i requires 0 <= i < |s| => UpperChar(s[i]))
  }

  /** Upper-casing twice is upper-casing once. */
  lemma ToUpperIdempotent(s: string)
    ensures ToUpper(ToUpper(s)) == ToUpper(s)
  {
  }
}
