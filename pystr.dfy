/** The Python string built-ins the scripts rely on: str.isspace, strip, split,
    join and replace, on strings as sequences of code points. */
module PyStr {

  /** The code points for which Python's str.isspace() holds; str.split() with no
      argument and str.strip() with no argument use exactly this set. */
  predicate IsSpace(c: char) {
    var n := c as int;
    (0x09 <= n <= 0x0d) || (0x1c <= n <= 0x20) || n == 0x85 || n == 0xa0 || n == 0x1680
    || (0x2000 <= n <= 0x200a) || n == 0x2028 || n == 0x2029 || n == 0x202f || n == 0x205f
    || n == 0x3000
  }

  predicate IsBlank(s: string) {
    forall i :: 0 <= i < |s| ==> IsSpace(s[i])
  }

  predicate NoSpace(s: string) {
    forall i :: 0 <= i < |s| ==> !IsSpace(s[i])
  }

  function LStrip(s: string): (r: string)
    ensures |r| <= |s|
    ensures r == [] || !IsSpace(r[0])
    ensures IsBlank(s[..|s| - |r|])
  {
    if s != [] && IsSpace(s[0]) then
      var t := LStrip(s[1..]);
      assert s[..|s| - |t|] == [s[0]] + s[1..][..|s[1..]| - |t|];
      t
    else s
  }

  /** What LStrip leaves is a suffix of its argument. */
  lemma {:induction false} LStripSuffix(s: string)
    ensures LStrip(s) == s[|s| - |LStrip(s)|..]
  {
    if s != [] && IsSpace(s[0]) {
      LStripSuffix(s[1..]);
    }
  }

  function RStrip(s: string): (r: string)
    ensures |r| <= |s| && r == s[..|r|]
    ensures r == [] || !IsSpace(r[|r| - 1])
    ensures IsBlank(s[|r|..])
  {
    if s != [] && IsSpace(s[|s| - 1]) then
      var t := RStrip(s[..|s| - 1]);
      assert s[|t|..] == s[..|s| - 1][|t|..] + [s[|s| - 1]];
      t
    else s
  }

  /** Python's s.strip(): the string without leading and trailing whitespace. */
  function Strip(s: string): string {
    RStrip(LStrip(s))
  }

  /** A string strips to "" exactly when it consists of whitespace only. */
  lemma StripEmptyIffBlank(s: string)
    ensures Strip(s) == "" <==> IsBlank(s)
  {
    var l := LStrip(s);
    LStripSuffix(s);
    if !IsBlank(s) {
      assert s[..|s|] == s;
      assert l != [];
      assert RStrip(l) != [];
    }
  }

  // ---------------------------------------------------------------------
  // str.split() with no argument: whitespace-separated words

  function WordLen(s: string): (n: nat)
    ensures n <= |s|
    ensures NoSpace(s[..n])
    ensures n < |s| ==> IsSpace(s[n])
  {
    if s == [] || IsSpace(s[0]) then 0
    else
      var m := WordLen(s[1..]);
      assert s[..m + 1] == [s[0]] + s[1..][..m];
      1 + m
  }

  /** Python's s.split(): the maximal runs of non-whitespace, in order. */
  function SplitWords(s: string): (r: seq<string>)
    ensures forall k :: 0 <= k < |r| ==> r[k] != [] && NoSpace(r[k])
    decreases |s|
  {
    if s == [] then []
    else if IsSpace(s[0]) then SplitWords(s[1..])
    else
      var n := WordLen(s);
      [s[..n]] + SplitWords(s[n..])
  }

  // ---------------------------------------------------------------------
  // sep.join(xs), "".join(xs), s.split(c) and s.replace(a, b) for single characters

  function Join(sep: string, xs: seq<string>): string {
    if xs == [] then ""
    else if |xs| == 1 then xs[0]
    else xs[0] + sep + Join(sep, xs[1..])
  }

  function Concat(xs: seq<string>): string {
    if xs == [] then "" else xs[0] + Concat(xs[1..])
  }

  lemma {:induction false} ConcatSnoc(xs: seq<string>, y: string)
    ensures Concat(xs + [y]) == Concat(xs) + y
  {
    if xs != [] {
      assert (xs + [y])[1..] == xs[1..] + [y];
      ConcatSnoc(xs[1..], y);
    }
  }

  /** Index of the first c in s, or |s| when there is none. */
  function CharIndex(s: string, c: char): (i: nat)
    ensures i <= |s|
    ensures forall j :: 0 <= j < i ==> s[j] != c
    ensures i < |s| ==> s[i] == c
  {
    if s == [] then 0 else if s[0] == c then 0 else 1 + CharIndex(s[1..], c)
  }

  /** Python's s.split(c) for a one-character separator: never empty. */
  function SplitOn(c: char, s: string): (r: seq<string>)
    ensures |r| >= 1
    decreases |s|
  {
    var i := CharIndex(s, c);
    if i == |s| then [s] else [s[..i]] + SplitOn(c, s[i + 1..])
  }

  lemma {:induction false} CharIndexNone(x: string, c: char)
    requires c !in x
    ensures CharIndex(x, c) == |x|
  {
    if x != [] {
      assert x[0] in x;
      assert forall j :: 0 <= j < |x[1..]| ==> x[1..][j] in x;
      CharIndexNone(x[1..], c);
    }
  }

  lemma CharIndexAfter(x: string, c: char, y: string)
    requires c !in x
    ensures CharIndex(x + [c] + y, c) == |x|
  {
    var s := x + [c] + y;
    assert forall j :: 0 <= j < |x| ==> s[j] == x[j];
    assert s[|x|] == c;
  }

  /** Splitting a join on its separator gives back the parts, provided no part
      contains the separator. */
  lemma {:induction false} SplitOnJoin(c: char, xs: seq<string>)
    requires xs != []
    requires forall k :: 0 <= k < |xs| ==> c !in xs[k]
    ensures SplitOn(c, Join([c], xs)) == xs
  {
    if |xs| == 1 {
      CharIndexNone(xs[0], c);
    } else {
      var rest := Join([c], xs[1..]);
      var s := xs[0] + [c] + rest;
      assert Join([c], xs) == s;
      CharIndexAfter(xs[0], c, rest);
      assert s[..|xs[0]|] == xs[0];
      assert s[|xs[0]| + 1..] == rest;
      assert SplitOn(c, s) == [xs[0]] + SplitOn(c, rest);
      SplitOnJoin(c, xs[1..]);
      assert xs == [xs[0]] + xs[1..];
    }
  }

  /** When neither the separator nor any part contains c, the join does not either. */
  lemma {:induction false} JoinAvoids(sep: string, xs: seq<string>, c: char)
    requires c !in sep
    requires forall k :: 0 <= k < |xs| ==> c !in xs[k]
    ensures c !in Join(sep, xs)
  {
    if |xs| > 1 {
      JoinAvoids(sep, xs[1..], c);
    }
  }

  /** Python's s.replace(a, b) for one-character a and b. */
  function ReplaceChar(s: string, a: char, b: char): (r: string)
    ensures |r| == |s|
    ensures forall i :: 0 <= i < |s| ==> r[i] == if s[i] == a then b else s[i]
  {
    if s == [] then [] else [if s[0] == a then b else s[0]] + ReplaceChar(s[1..], a, b)
  }

  /** The words of a sentence, each followed by a space: the accumulation
      `current_text += word + " "`. */
  function SpaceTerminated(ws: seq<string>): string {
    if ws == [] then "" else SpaceTerminated(ws[..|ws| - 1]) + ws[|ws| - 1] + " "
  }

  /** Stripping the space-terminated accumulation of whitespace-free words gives
      the words joined by single spaces. */
  lemma {:induction false} StripSpaceTerminated(ws: seq<string>)
    requires forall k :: 0 <= k < |ws| ==> ws[k] != [] && NoSpace(ws[k])
    ensures Strip(SpaceTerminated(ws)) == Join(" ", ws)
  {
    if ws != [] {
      JoinSpaceShape(ws);
      var j := Join(" ", ws);
      assert SpaceTerminated(ws) == j + " " by {
        SpaceTerminatedIsJoin(ws);
      }
      assert LStrip(j + " ") == j + " ";
      assert RStrip(j + " ") == RStrip(j) by {
        assert (j + " ")[..|j + " "| - 1] == j;
      }
      StripTrimmedR(j);
    }
  }

  lemma StripTrimmedR(s: string)
    requires s != [] && !IsSpace(s[|s| - 1])
    ensures RStrip(s) == s
  {
  }

  lemma {:induction false} SpaceTerminatedIsJoin(ws: seq<string>)
    requires ws != []
    ensures SpaceTerminated(ws) == Join(" ", ws) + " "
  {
    if |ws| > 1 {
      var p := ws[..|ws| - 1];
      SpaceTerminatedIsJoin(p);
      JoinSnoc(" ", p, ws[|ws| - 1]);
      assert p + [ws[|ws| - 1]] == ws;
    }
  }

  lemma {:induction false} JoinSnoc(sep: string, xs: seq<string>, y: string)
    requires xs != []
    ensures Join(sep, xs + [y]) == Join(sep, xs) + sep + y
  {
    if |xs| == 1 {
      assert xs + [y] == [xs[0], y];
    } else {
      assert (xs + [y])[1..] == xs[1..] + [y];
      JoinSnoc(sep, xs[1..], y);
    }
  }

  lemma {:induction false} JoinSpaceShape(ws: seq<string>)
    requires ws != []
    requires forall k :: 0 <= k < |ws| ==> ws[k] != [] && NoSpace(ws[k])
    ensures Join(" ", ws) != [] && !IsSpace(Join(" ", ws)[0])
    ensures !IsSpace(Join(" ", ws)[|Join(" ", ws)| - 1])
  {
    if |ws| > 1 {
      JoinSpaceShape(ws[1..]);
      var j := Join(" ", ws);
      assert j == ws[0] + " " + Join(" ", ws[1..]);
      assert j[0] == ws[0][0];
    }
  }
  // ---------------------------------------------------------------------
  // str(n) for a natural number

  function Digit(d: nat): (c: char)
    requires d < 10
    ensures '0' <= c <= '9'
  {
    (48 + d) as char
  }

  /** Python's str(n): the decimal digits of n, most significant first, with
      no leading zero. */
  function NatToString(n: nat): (s: string)
    ensures |s| >= 1
    ensures |s| == 1 <==> n < 10
    ensures forall i :: 0 <= i < |s| ==> '0' <= s[i] <= '9'
    ensures n >= 10 ==> s[0] != '0'
    decreases n
  {
    if n < 10 then [Digit(n)] else NatToString(n / 10) + [Digit(n % 10)]
  }

  /** Different numbers have different decimal strings. */
  lemma {:induction false} NatToStringInjective(a: nat, b: nat)
    requires NatToString(a) == NatToString(b)
    ensures a == b
    decreases a
  {
    var s := NatToString(a);
    if a >= 10 {
      assert b >= 10;
      assert s[..|s| - 1] == NatToString(a / 10) && s[..|s| - 1] == NatToString(b / 10);
      NatToStringInjective(a / 10, b / 10);
      assert Digit(a % 10) == Digit(b % 10);
    }
  }

  // ---------------------------------------------------------------------
  // String order: Python's < on str compares code points lexicographically,
  // and a proper prefix comes first

  predicate StrLess(a: string, b: string) {
    if a == [] then b != []
    else if b == [] then false
    else if a[0] == b[0] then StrLess(a[1..], b[1..])
    else a[0] < b[0]
  }

  lemma {:induction false} StrLessIrreflexive(a: string)
    ensures !StrLess(a, a)
  {
    if a != [] {
      StrLessIrreflexive(a[1..]);
    }
  }

  lemma {:induction false} StrLessTransitive(a: string, b: string, c: string)
    requires StrLess(a, b) && StrLess(b, c)
    ensures StrLess(a, c)
  {
    if a != [] && a[0] == b[0] && b[0] == c[0] {
      StrLessTransitive(a[1..], b[1..], c[1..]);
    }
  }

  /** Two different strings are ordered one way or the other. */
  lemma {:induction false} StrLessTotal(a: string, b: string)
    requires a != b
    ensures StrLess(a, b) || StrLess(b, a)
  {
    if a != [] && b != [] && a[0] == b[0] {
      assert a == [a[0]] + a[1..] && b == [b[0]] + b[1..];
      StrLessTotal(a[1..], b[1..]);
    }
  }
}
