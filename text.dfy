/** The string operations the client uses: ASCII lower-casing, Python slicing, and
    the "append a separator after every item, then cut the last one off" idiom. */
module Text {

  /** `str.lower()` on one character, for the ASCII letters. */
  function LowerChar(c: char): char
  {
    if 'A' <= c <= 'Z' then (c as int + 32) as char else c
  }

  /** `str.lower()` (ASCII letters only). */
  function ToLower(s: string): (r: string)
    ensures |r| == |s|
  {
    seq(|s|, i requires 0 <= i < |s| => LowerChar(s[i]))
  }

  /** A string with no upper-case ASCII letter. */
  predicate IsLower(s: string)
  {
    forall i :: 0 <= i < |s| ==> !('A' <= s[i] <= 'Z')
  }

  /** Lower-casing leaves no upper-case letter, and lower-cased text is its own lower case. */
  lemma LowerIsLower(s: string)
    ensures IsLower(ToLower(s))
    ensures ToLower(ToLower(s)) == ToLower(s)
  {
    assert forall i :: 0 <= i < |s| ==> ToLower(ToLower(s))[i] == ToLower(s)[i];
  }

  /** Lower-cased text is left as it is. */
  lemma LowerOfLower(s: string)
    requires IsLower(s)
    ensures ToLower(s) == s
  {
  }

  /** Python's `s[:k]`: the first `k` characters, or all of them when there are fewer. */
  function Take(s: string, k: nat): (r: string)
    ensures |r| == if |s| <= k then |s| else k
    ensures r <= s
  {
    if |s| <= k then s else s[..k]
  }

  /** Python's `s[k:]`: everything after the first `k` characters. */
  function Drop(s: string, k: nat): (r: string)
    ensures Take(s, k) + r == s
  {
    if |s| <= k then [] else s[k..]
  }

  /** Python's `s[:-k]` for `k > 0`: all but the last `k` characters, or "" when there are fewer. */
  function DropLast(s: string, k: nat): (r: string)
    requires k > 0
    ensures |s| >= k ==> r + s[|s| - k..] == s && |r| == |s| - k
    ensures |s| < k ==> r == ""
  {
    if |s| >= k then s[..|s| - k] else ""
  }

  /** The items with `sep` between neighbours; "" when there are none. */
  function Join(xs: seq<string>, sep: string): string
    decreases |xs|
  {
    if |xs| == 0 then ""
    else if |xs| == 1 then xs[0]
    else Join(xs[..|xs| - 1], sep) + sep + xs[|xs| - 1]
  }

  /** What a loop builds that appends every item followed by `sep`. */
  function Terminated(xs: seq<string>, sep: string): string
    decreases |xs|
  {
    if |xs| == 0 then "" else Terminated(xs[..|xs| - 1], sep) + xs[|xs| - 1] + sep
  }

  /** The accumulated text is the joined text plus one trailing separator. */
  lemma {:induction false} TerminatedIsJoinPlusSep(xs: seq<string>, sep: string)
    requires |xs| > 0
    ensures Terminated(xs, sep) == Join(xs, sep) + sep
    decreases |xs|
  {
    if |xs| > 1 {
      var init := xs[..|xs| - 1];
      TerminatedIsJoinPlusSep(init, sep);
      assert Terminated(xs, sep) == Terminated(init, sep) + xs[|xs| - 1] + sep;
    }
  }

  /** Cutting the trailing separator off the accumulated text gives exactly the joined text,
      and the empty list gives "". */
  lemma TrimmedIsJoin(xs: seq<string>, sep: string)
    requires |sep| > 0
    ensures DropLast(Terminated(xs, sep), |sep|) == Join(xs, sep)
  {
    if |xs| > 0 {
      TerminatedIsJoinPlusSep(xs, sep);
      var t := Terminated(xs, sep);
      assert t[..|t| - |sep|] == Join(xs, sep);
    }
  }

  /** Appending one more item extends the accumulated text by the item and a separator. */
  lemma TerminatedSnoc(xs: seq<string>, x: string, sep: string)
    ensures Terminated(xs + [x], sep) == Terminated(xs, sep) + x + sep
  {
    assert (xs + [x])[..|xs|] == xs;
  }

  /** Cutting the trailing separator after a fixed opening text leaves the opening followed by
      the joined items; with no items the cut falls on the opening itself. */
  lemma TrimmedAfterOpening(opening: string, xs: seq<string>, sep: string)
    requires |sep| > 0 && |opening| >= |sep|
    ensures DropLast(opening + Terminated(xs, sep), |sep|) ==
      if xs == [] then opening[..|opening| - |sep|] else opening + Join(xs, sep)
  {
    if xs != [] {
      TerminatedIsJoinPlusSep(xs, sep);
      var t := opening + Join(xs, sep) + sep;
      assert t[..|t| - |sep|] == opening + Join(xs, sep);
    } else {
      assert opening + Terminated(xs, sep) == opening;
    }
  }

  /** The total length of the items. */
  function TotalLength(xs: seq<string>): nat
    decreases |xs|
  {
    if |xs| == 0 then 0 else TotalLength(xs[..|xs| - 1]) + |xs[|xs| - 1]|
  }

  /** Joining loses no character and adds one separator per gap between neighbours. */
  lemma {:induction false} JoinLength(xs: seq<string>, sep: string)
    requires |xs| > 0
    ensures |Join(xs, sep)| == TotalLength(xs) + (|xs| - 1) * |sep|
    decreases |xs|
  {
    if |xs| > 1 {
      var init := xs[..|xs| - 1];
      JoinLength(init, sep);
      assert |Join(xs, sep)| == |Join(init, sep)| + |sep| + |xs[|xs| - 1]|;
      assert (|xs| - 1) * |sep| == (|init| - 1) * |sep| + |sep|;
    } else {
      assert xs[..0] == [];
    }
  }

  /** The joined text starts with the first item and ends with the last one. */
  lemma {:induction false} JoinEnds(xs: seq<string>, sep: string)
    requires |xs| > 0
    ensures HasPrefix(Join(xs, sep), xs[0])
    ensures var j := Join(xs, sep); var last := xs[|xs| - 1];
      |last| <= |j| && j[|j| - |last|..] == last
    decreases |xs|
  {
    if |xs| > 1 {
      var init := xs[..|xs| - 1];
      JoinEnds(init, sep);
      var j := Join(xs, sep);
      assert j == Join(init, sep) + sep + xs[|xs| - 1];
      assert init[0] == xs[0];
      assert j[..|xs[0]|] == Join(init, sep)[..|xs[0]|];
    }
  }

  /** Regrouping a concatenation of four strings. */
  lemma Regroup(a: string, b: string, c: string, d: string)
    ensures a + b + c + d == a + (b + c + d)
  {
  }

  /** `s` starts with `p`. */
  predicate HasPrefix(s: string, p: string)
  {
    |p| <= |s| && s[..|p|] == p
  }
}
