/**
 * Strings as sequences of characters: where a piece of text occurs in
 * another, and the filling of a fixed template with caller-supplied values
 * (what a Python f-string does).
 */
module Text {

  /** `m` occurs in `s` starting at index `i`. */
  predicate Occurs(m: string, s: string, i: int) {
    0 <= i && i + |m| <= |s| && s[i..i + |m|] == m
  }

  /** `m` occurs somewhere in `s`. */
  predicate Contains(s: string, m: string) {
    exists i | 0 <= i <= |s| :: Occurs(m, s, i)
  }

  predicate StartsWith(s: string, p: string) {
    |p| <= |s| && s[..|p|] == p
  }

  predicate EndsWith(s: string, q: string) {
    |q| <= |s| && s[|s| - |q|..] == q
  }

  /**
   * Every string of `xs` occurs in `s` verbatim, left to right, each one
   * starting after the end of the one before it (no two overlap).
   */
  predicate AppearsInOrder(xs: seq<string>, s: string)
    decreases |xs|
  {
    xs == [] || exists i | 0 <= i <= |s| :: Occurs(xs[0], s, i) && AppearsInOrder(xs[1..], s[i + |xs[0]|..])
  }

  /** The summed length of a list of strings. */
  function TotalLength(xs: seq<string>): nat {
    if xs == [] then 0 else |xs[0]| + TotalLength(xs[1..])
  }

  /**
   * A template with `|args|` holes: `segments[0] + args[0] + segments[1] +
   * ... + args[n-1] + segments[n]`.
   */
  function Fill(segments: seq<string>, args: seq<string>): string
    requires |segments| == |args| + 1
    decreases |args|
  {
    if args == [] then segments[0]
    else segments[0] + args[0] + Fill(segments[1..], args[1..])
  }

  /**
   * A filled template is exactly as long as its fixed text plus the values:
   * nothing is added, dropped or truncated.
   */
  lemma {:induction false} FillLength(segments: seq<string>, args: seq<string>)
    requires |segments| == |args| + 1
    ensures |Fill(segments, args)| == TotalLength(segments) + TotalLength(args)
    decreases |args|
  {
    if args != [] {
      FillLength(segments[1..], args[1..]);
    }
  }

  /** A filled template starts with its first fixed segment and ends with its last. */
  lemma {:induction false} FillBounds(segments: seq<string>, args: seq<string>)
    requires |segments| == |args| + 1
    ensures StartsWith(Fill(segments, args), segments[0])
    ensures EndsWith(Fill(segments, args), segments[|segments| - 1])
    decreases |args|
  {
    if args != [] {
      var rest := Fill(segments[1..], args[1..]);
      FillBounds(segments[1..], args[1..]);
      assert Fill(segments, args) == segments[0] + args[0] + rest;
      assert segments[1..][|segments[1..]| - 1] == segments[|segments| - 1];
    }
  }

  lemma StartsWithTrans(s: string, p: string, q: string)
    requires StartsWith(s, p) && StartsWith(p, q)
    ensures StartsWith(s, q)
  {
    assert s[..|q|] == s[..|p|][..|q|];
  }

  lemma EndsWithTrans(s: string, p: string, q: string)
    requires EndsWith(s, p) && EndsWith(p, q)
    ensures EndsWith(s, q)
  {
    assert s[|s| - |q|..] == s[|s| - |p|..][|p| - |q|..];
  }

  lemma ConcatBounds(a: string, b: string)
    ensures StartsWith(a + b, a) && EndsWith(a + b, b)
  {
    assert (a + b)[..|a|] == a;
    assert (a + b)[|a + b| - |b|..] == b;
  }

  /** Every value filled into a template appears in the result verbatim and in order. */
  lemma {:induction false} FillInOrder(segments: seq<string>, args: seq<string>)
    requires |segments| == |args| + 1
    ensures AppearsInOrder(args, Fill(segments, args))
    decreases |args|
  {
    if args != [] {
      var r := Fill(segments, args);
      var rest := Fill(segments[1..], args[1..]);
      var i := |segments[0]|;
      assert r == segments[0] + args[0] + rest;
      assert r[i..i + |args[0]|] == args[0];
      assert Occurs(args[0], r, i);
      assert r[i + |args[0]|..] == rest;
      FillInOrder(segments[1..], args[1..]);
    }
  }

  /** Text appended after `s` does not disturb what appears in `s`. */
  lemma {:induction false} InOrderAppend(xs: seq<string>, s: string, t: string)
    requires AppearsInOrder(xs, s)
    ensures AppearsInOrder(xs, s + t)
    decreases |xs|
  {
    if xs != [] {
      var i :| 0 <= i <= |s| && Occurs(xs[0], s, i) && AppearsInOrder(xs[1..], s[i + |xs[0]|..]);
      assert (s + t)[i..i + |xs[0]|] == s[i..i + |xs[0]|];
      assert (s + t)[i + |xs[0]|..] == s[i + |xs[0]|..] + t;
      InOrderAppend(xs[1..], s[i + |xs[0]|..], t);
      assert Occurs(xs[0], s + t, i) && AppearsInOrder(xs[1..], (s + t)[i + |xs[0]|..]);
    }
  }

  /** Text prepended before `s` does not disturb what appears in `s`. */
  lemma {:induction false} InOrderPrepend(xs: seq<string>, p: string, s: string)
    requires AppearsInOrder(xs, s)
    ensures AppearsInOrder(xs, p + s)
  {
    if xs != [] {
      var i :| 0 <= i <= |s| && Occurs(xs[0], s, i) && AppearsInOrder(xs[1..], s[i + |xs[0]|..]);
      var j := |p| + i;
      assert (p + s)[j..j + |xs[0]|] == s[i..i + |xs[0]|];
      assert (p + s)[j + |xs[0]|..] == s[i + |xs[0]|..];
      assert Occurs(xs[0], p + s, j);
    }
  }

  /** What appears in order in the end of `s` appears in order in `s`. */
  lemma InOrderInSuffix(xs: seq<string>, s: string, q: string)
    requires EndsWith(s, q) && AppearsInOrder(xs, q)
    ensures AppearsInOrder(xs, s)
  {
    assert s == s[..|s| - |q|] + q;
    InOrderPrepend(xs, s[..|s| - |q|], q);
  }

  /** What appears in order in the start of `s` appears in order in `s`. */
  lemma InOrderInPrefix(xs: seq<string>, s: string, p: string)
    requires StartsWith(s, p) && AppearsInOrder(xs, p)
    ensures AppearsInOrder(xs, s)
  {
    assert s == p + s[|p|..];
    InOrderAppend(xs, p, s[|p|..]);
  }

  /** Dropping the first strings keeps the rest in order. */
  lemma {:induction false} InOrderDrop(xs: seq<string>, k: nat, s: string)
    requires AppearsInOrder(xs, s) && k <= |xs|
    ensures AppearsInOrder(xs[k..], s)
    decreases k
  {
    if k > 0 {
      var i :| 0 <= i <= |s| && Occurs(xs[0], s, i) && AppearsInOrder(xs[1..], s[i + |xs[0]|..]);
      InOrderDrop(xs[1..], k - 1, s[i + |xs[0]|..]);
      assert xs[1..][k - 1..] == xs[k..];
      assert s == s[..i + |xs[0]|] + s[i + |xs[0]|..];
      InOrderPrepend(xs[k..], s[..i + |xs[0]|], s[i + |xs[0]|..]);
    }
  }

  /** Dropping the last strings keeps the rest in order. */
  lemma {:induction false} InOrderTake(xs: seq<string>, k: nat, s: string)
    requires AppearsInOrder(xs, s) && k <= |xs|
    ensures AppearsInOrder(xs[..k], s)
    decreases k
  {
    if k > 0 {
      var i :| 0 <= i <= |s| && Occurs(xs[0], s, i) && AppearsInOrder(xs[1..], s[i + |xs[0]|..]);
      InOrderTake(xs[1..], k - 1, s[i + |xs[0]|..]);
      assert xs[..k][0] == xs[0];
      assert xs[..k][1..] == xs[1..][..k - 1];
    }
  }

  /** Each string of a list that appears in order is contained in the text. */
  lemma {:induction false} InOrderContains(xs: seq<string>, s: string, k: nat)
    requires AppearsInOrder(xs, s) && k < |xs|
    ensures Contains(s, xs[k])
    decreases k
  {
    var i :| 0 <= i <= |s| && Occurs(xs[0], s, i) && AppearsInOrder(xs[1..], s[i + |xs[0]|..]);
    if k == 0 {
      assert Occurs(xs[0], s, i);
    } else {
      var rest := s[i + |xs[0]|..];
      InOrderContains(xs[1..], rest, k - 1);
      var j :| 0 <= j <= |rest| && Occurs(xs[1..][k - 1], rest, j);
      var at := i + |xs[0]| + j;
      assert s[at..at + |xs[k]|] == rest[j..j + |xs[k]|];
      assert Occurs(xs[k], s, at);
    }
  }
}
