/**
  Splitting a URL pathname into pieces the way JavaScript's
  `String.prototype.split` does when given a one-character separator, and
  removing the first element of a list the way `Array.prototype.shift` does.

  `Split` cuts at every separator, so a string with k separators always
  yields k + 1 pieces, empty ones included: "" gives [""], "/" gives
  ["", ""] and "a//b" gives ["a", "", "b"]. `Join` is its inverse.
 */
module Paths {

  /** The pieces of `s` between occurrences of `sep`, in order. */
  function Split(s: string, sep: char): (r: seq<string>)
    ensures |r| >= 1
    ensures forall i :: 0 <= i < |r| ==> sep !in r[i]
    decreases |s|
  {
    if |s| == 0 then [""]
    else
      var rest := Split(s[1..], sep);
      assert s == [s[0]] + s[1..];
      if s[0] == sep then [""] + rest
      else [[s[0]] + rest[0]] + rest[1..]
  }

  /** The pieces glued back together with `sep` between neighbours. */
  function Join(parts: seq<string>, sep: char): string
  {
    if |parts| == 0 then ""
    else if |parts| == 1 then parts[0]
    else parts[0] + [sep] + Join(parts[1..], sep)
  }

  /** The list without its first element; an empty list stays empty. */
  function Shift<T>(xs: seq<T>): seq<T>
  {
    if |xs| == 0 then [] else xs[1..]
  }

  /** True when no piece contains the separator. */
  predicate SeparatorFree(parts: seq<string>, sep: char)
  {
    forall i :: 0 <= i < |parts| ==> sep !in parts[i]
  }

  /** A string with k separators splits into k + 1 pieces. */
  lemma {:induction false} SplitCount(s: string, sep: char)
    ensures |Split(s, sep)| == multiset(s)[sep] + 1
    decreases |s|
  {
    if |s| > 0 {
      SplitCount(s[1..], sep);
      assert s == [s[0]] + s[1..];
    }
  }

  /** Joining the pieces that `Split` produced gives back the original string. */
  lemma {:induction false} JoinSplit(s: string, sep: char)
    ensures Join(Split(s, sep), sep) == s
    decreases |s|
  {
    if |s| > 0 {
      var rest := Split(s[1..], sep);
      JoinSplit(s[1..], sep);
      if s[0] == sep {
        JoinAfterEmpty(rest, sep);
      } else {
        JoinExtendFirst(s[0], rest, sep);
      }
      assert [s[0]] + s[1..] == s;
    }
  }

  /** Putting an empty piece in front adds one separator in front. */
  lemma JoinAfterEmpty(rest: seq<string>, sep: char)
    requires |rest| > 0
    ensures Join([""] + rest, sep) == [sep] + Join(rest, sep)
  {
  }

  /** Putting a character in front of the first piece puts it in front of the join. */
  lemma JoinExtendFirst(c: char, rest: seq<string>, sep: char)
    requires |rest| > 0
    ensures Join([[c] + rest[0]] + rest[1..], sep) == [c] + Join(rest, sep)
  {
  }

  /** A string without separators is a single piece. */
  lemma {:induction false} SplitSeparatorFree(a: string, sep: char)
    requires sep !in a
    ensures Split(a, sep) == [a]
    decreases |a|
  {
    if |a| > 0 {
      SplitSeparatorFree(a[1..], sep);
      assert [a[0]] + a[1..] == a;
    }
  }

  /** A separator-free prefix followed by a separator becomes the first piece. */
  lemma {:induction false} SplitAfterPiece(a: string, sep: char, b: string)
    requires sep !in a
    ensures Split(a + [sep] + b, sep) == [a] + Split(b, sep)
    decreases |a|
  {
    var s := a + [sep] + b;
    if |a| == 0 {
      assert s[1..] == b;
    } else {
      assert s[1..] == a[1..] + [sep] + b;
      SplitAfterPiece(a[1..], sep, b);
      assert [a[0]] + a[1..] == a;
    }
  }

  /** Splitting a join of separator-free pieces gives back the pieces. */
  lemma {:induction false} SplitJoin(parts: seq<string>, sep: char)
    requires |parts| > 0
    requires SeparatorFree(parts, sep)
    ensures Split(Join(parts, sep), sep) == parts
    decreases |parts|
  {
    if |parts| == 1 {
      SplitSeparatorFree(parts[0], sep);
    } else {
      SplitJoin(parts[1..], sep);
      SplitAfterPiece(parts[0], sep, Join(parts[1..], sep));
      assert [parts[0]] + parts[1..] == parts;
    }
  }

  /**
    The first piece of `s` is the separator-free word `w` exactly when `s` is
    `w` itself or starts with `w` followed by a separator; the remaining
    pieces are then none, or the pieces of what follows that separator.
   */
  lemma FirstPiece(s: string, sep: char, w: string)
    requires sep !in w
    ensures Split(s, sep)[0] == w <==> s == w || (|s| > |w| && s[..|w| + 1] == w + [sep])
    ensures s == w ==> Split(s, sep)[1..] == []
    ensures |s| > |w| && s[..|w| + 1] == w + [sep] ==> Split(s, sep)[1..] == Split(s[|w| + 1..], sep)
  {
    var parts := Split(s, sep);
    if s == w {
      SplitSeparatorFree(w, sep);
    } else if |s| > |w| && s[..|w| + 1] == w + [sep] {
      assert s == w + [sep] + s[|w| + 1..];
      SplitAfterPiece(w, sep, s[|w| + 1..]);
    } else {
      JoinSplit(s, sep);
      if |parts| > 1 {
        assert s == parts[0] + [sep] + Join(parts[1..], sep);
      }
    }
  }
}
