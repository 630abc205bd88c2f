/**
 * The text `operator<<` writes for either array class: '[', the elements in
 * decimal separated by ", " with no trailing separator, then ']'.
 * `ParseRendered` reads that text back, which shows the brackets and
 * separators delimit the elements unambiguously.
 */
module Rendering {
  import opened Options
  import opened Decimal

  const Separator: string := ", "

  /** The decimal text of every element, in order. */
  function Texts(s: seq<int>): seq<string> {
    seq(|s|, i requires 0 <= i < |s| => IntToString(s[i]))
  }

  /** The parts with one Separator between neighbours and none after the last. */
  function Join(parts: seq<string>): string
    decreases |parts|
  {
    if |parts| == 0 then ""
    else if |parts| == 1 then parts[0]
    else Join(parts[..|parts| - 1]) + Separator + parts[|parts| - 1]
  }

  /** The text written for an array whose elements are s. */
  function Rendered(s: seq<int>): (r: string)
    ensures |r| >= 2 && r[0] == '[' && r[|r| - 1] == ']'
  {
    "[" + Join(Texts(s)) + "]"
  }

  /**
   * What has been written after the first i elements of s: the opening
   * bracket, those elements, and the separator that follows each element
   * but the last.
   */
  function RenderedPrefix(s: seq<int>, i: nat): string
    requires i <= |s|
  {
    "[" + Join(Texts(s)[..i]) + (if 0 < i < |s| then Separator else "")
  }

  /** Join grows by one part at a time, with a separator before every part but the first. */
  lemma JoinPrefix(parts: seq<string>, i: nat)
    requires i < |parts|
    ensures Join(parts[..i + 1]) == Join(parts[..i]) + (if i == 0 then "" else Separator) + parts[i]
  {
    var p := parts[..i + 1];
    assert p[..i] == parts[..i];
    assert p[i] == parts[i];
  }

  /** Writing element i, then a separator unless it is the last, extends the prefix by one element. */
  lemma RenderedPrefixStep(s: seq<int>, i: nat)
    requires i < |s|
    ensures RenderedPrefix(s, i + 1) ==
      RenderedPrefix(s, i) + IntToString(s[i]) + (if i != |s| - 1 then Separator else "")
  {
    var t := Texts(s);
    assert t[i] == IntToString(s[i]);
    JoinPrefix(t, i);
  }

  /** The closing bracket after all elements completes the rendering. */
  lemma RenderedPrefixDone(s: seq<int>)
    ensures RenderedPrefix(s, |s|) + "]" == Rendered(s)
  {
    assert Texts(s)[..|s|] == Texts(s);
  }

  /** Join read from the front: the first part, then a separator before the rest. */
  lemma {:induction false} JoinCons(p: string, q: seq<string>)
    ensures Join([p] + q) == p + (if q == [] then "" else Separator + Join(q))
    decreases |q|
  {
    var w := [p] + q;
    if |q| == 1 {
      assert w[..1] == [p];
      assert w[1] == q[0];
    } else if |q| > 1 {
      assert w[..|w| - 1] == [p] + q[..|q| - 1];
      assert w[|w| - 1] == q[|q| - 1];
      JoinCons(p, q[..|q| - 1]);
    }
  }

  /** An empty array is written as "[]". */
  lemma RenderedEmpty()
    ensures Rendered([]) == "[]"
  {
  }

  /** The array DynamicArray(3, 5) is written as "[5, 5, 5]". */
  lemma RenderedThreeFives()
    ensures Rendered([5, 5, 5]) == "[5, 5, 5]"
  {
    var t := Texts([5, 5, 5]);
    assert IntToString(5) == "5";
    assert t == ["5", "5", "5"];
    assert t[..2] == ["5", "5"];
    assert t[..2][..1] == ["5"];
    assert Join(t[..2]) == "5, 5";
    assert Join(t) == "5, 5, 5";
  }

  /** The character before the closing ']' of a non-empty array is a digit: no trailing separator. */
  lemma NoTrailingSeparator(s: seq<int>)
    requires s != []
    ensures var r := Rendered(s); |r| >= 3 && IsDigit(r[|r| - 2])
  {
  }

  // ---------------------------------------------------------------
  // Reading rendered text back
  // ---------------------------------------------------------------

  /** Length of the longest prefix of t that holds no ','. */
  function TokenLength(t: string): (k: nat)
    ensures k <= |t|
    ensures forall j :: 0 <= j < k ==> t[j] != ','
    ensures k < |t| ==> t[k] == ','
    decreases |t|
  {
    if t == [] || t[0] == ',' then 0 else 1 + TokenLength(t[1..])
  }

  /** Reads decimal numbers separated by ", "; None if t is not of that form. */
  function ParseElements(t: string): Option<seq<int>>
    decreases |t|
  {
    var k := TokenLength(t);
    match ParseInt(t[..k])
    case None => None
    case Some(x) =>
      if k == |t| then Some([x])
      else if k + 2 <= |t| && t[k..k + 2] == Separator then
        match ParseElements(t[k + 2..])
        case None => None
        case Some(xs) => Some([x] + xs)
      else None
  }

  /** Reads what Rendered writes; None for any text not of the form "[...]". */
  function ParseRendered(t: string): Option<seq<int>> {
    if |t| >= 2 && t[0] == '[' && t[|t| - 1] == ']' then
      var body := t[1..|t| - 1];
      if body == [] then Some([]) else ParseElements(body)
    else None
  }

  // ---------------------------------------------------------------
  // Reading back what was written
  // ---------------------------------------------------------------

  predicate NoComma(t: string) {
    forall i :: 0 <= i < |t| ==> t[i] != ','
  }

  lemma {:induction false} TokenLengthOfNoComma(u: string, v: string)
    requires NoComma(u)
    requires v == [] || v[0] == ','
    ensures TokenLength(u + v) == |u|
    decreases |u|
  {
    if u != [] {
      assert (u + v)[1..] == u[1..] + v;
      TokenLengthOfNoComma(u[1..], v);
    }
  }

  /** The first token of the text of x followed by a ',' (or nothing) is x. */
  lemma FirstToken(x: int, v: string)
    requires v == [] || v[0] == ','
    ensures var t := IntToString(x) + v;
      TokenLength(t) == |IntToString(x)| && ParseInt(t[..TokenLength(t)]) == Some(x)
  {
    var u := IntToString(x);
    IntToStringChars(x);
    assert NoComma(u);
    TokenLengthOfNoComma(u, v);
    assert (u + v)[..|u|] == u;
    IntToStringRoundTrip(x);
  }

  lemma ParseSingle(x: int)
    ensures ParseElements(IntToString(x)) == Some([x])
  {
    FirstToken(x, []);
    assert IntToString(x) + [] == IntToString(x);
  }

  lemma ParseCons(x: int, tail: string, xs: seq<int>)
    requires ParseElements(tail) == Some(xs)
    ensures ParseElements(IntToString(x) + (Separator + tail)) == Some([x] + xs)
  {
    var u := IntToString(x);
    var t := u + (Separator + tail);
    FirstToken(x, Separator + tail);
    assert t[|u|..|u| + 2] == Separator;
    assert t[|u| + 2..] == tail;
  }

  lemma {:induction false} ParseJoined(s: seq<int>)
    requires s != []
    ensures ParseElements(Join(Texts(s))) == Some(s)
    decreases |s|
  {
    var x := s[0];
    if |s| == 1 {
      assert s == [x];
      assert Texts(s) == [IntToString(x)];
      ParseSingle(x);
    } else {
      var rest := s[1..];
      assert Join(Texts(s)) == IntToString(x) + (Separator + Join(Texts(rest))) by {
        assert Texts(s) == [IntToString(x)] + Texts(rest);
        JoinCons(IntToString(x), Texts(rest));
      }
      ParseJoined(rest);
      ParseCons(x, Join(Texts(rest)), rest);
      assert [x] + rest == s;
    }
  }

  /** Reading back what was written gives the same elements. */
  lemma RenderedRoundTrip(s: seq<int>)
    ensures ParseRendered(Rendered(s)) == Some(s)
  {
    var r := Rendered(s);
    assert r[1..|r| - 1] == Join(Texts(s));
    if s != [] {
      assert Join(Texts(s)) != [] by { NoTrailingSeparator(s); }
      ParseJoined(s);
    }
  }

  /** Arrays with different elements are written differently. */
  lemma RenderedInjective(s: seq<int>, t: seq<int>)
    requires Rendered(s) == Rendered(t)
    ensures s == t
  {
    RenderedRoundTrip(s);
    RenderedRoundTrip(t);
  }
}
