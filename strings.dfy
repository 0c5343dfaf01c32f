/**
 * The three operations of Go's `strings` package that the load-balancer code
 * relies on, for a non-empty separator: `Split`, `Join` and `Count`.
 */
module Strings {

  /**
   * Go's `strings.Split(s, sep)`: the pieces of `s` between the non-overlapping
   * occurrences of `sep`, found left to right. Always at least one piece, even
   * for the empty string.
   */
  function Split(s: string, sep: string): (pieces: seq<string>)
    requires |sep| > 0
    ensures |pieces| >= 1
    decreases |s|
  {
    if |s| < |sep| then [s]
    else if s[..|sep|] == sep then [""] + Split(s[|sep|..], sep)
    else
      var rest := Split(s[1..], sep);
      [[s[0]] + rest[0]] + rest[1..]
  }

  /** Go's `strings.Join(parts, sep)`. */
  function Join(parts: seq<string>, sep: string): string
  {
    if |parts| == 0 then ""
    else if |parts| == 1 then parts[0]
    else parts[0] + sep + Join(parts[1..], sep)
  }

  /** Go's `strings.Count(s, sep)`: non-overlapping occurrences of `sep`, left to right. */
  function Count(s: string, sep: string): nat
    requires |sep| > 0
    decreases |s|
  {
    if |s| < |sep| then 0
    else if s[..|sep|] == sep then 1 + Count(s[|sep|..], sep)
    else Count(s[1..], sep)
  }

  /** Joining the pieces back with the separator gives the original string. */
  lemma {:induction false} JoinSplit(s: string, sep: string)
    requires |sep| > 0
    ensures Join(Split(s, sep), sep) == s
    decreases |s|
  {
    if |s| < |sep| {
    } else if s[..|sep|] == sep {
      var rest := Split(s[|sep|..], sep);
      JoinSplit(s[|sep|..], sep);
      assert Split(s, sep) == [""] + rest;
      JoinCons("", rest, sep);
      assert s == sep + s[|sep|..];
    } else {
      var rest := Split(s[1..], sep);
      JoinSplit(s[1..], sep);
      assert Split(s, sep) == [[s[0]] + rest[0]] + rest[1..];
      JoinHead(s[0], rest, sep);
      assert s == [s[0]] + s[1..];
    }
  }

  /** Joining a part in front of a non-empty list adds the part and a separator. */
  lemma JoinCons(p: string, parts: seq<string>, sep: string)
    requires |parts| >= 1
    ensures Join([p] + parts, sep) == p + sep + Join(parts, sep)
  {
    assert ([p] + parts)[1..] == parts;
  }

  /** Prefixing the first part with a character prefixes the join with it. */
  lemma JoinHead(c: char, parts: seq<string>, sep: string)
    requires |parts| >= 1
    ensures Join([[c] + parts[0]] + parts[1..], sep) == [c] + Join(parts, sep)
  {
    var q := [[c] + parts[0]] + parts[1..];
    if |parts| > 1 {
      assert q[1..] == parts[1..];
    }
  }

  /** There is one more piece than there are separators. */
  lemma {:induction false} SplitLength(s: string, sep: string)
    requires |sep| > 0
    ensures |Split(s, sep)| == Count(s, sep) + 1
    decreases |s|
  {
    if |s| < |sep| {
    } else if s[..|sep|] == sep {
      SplitLength(s[|sep|..], sep);
    } else {
      SplitLength(s[1..], sep);
    }
  }

  /** A string without the separator is one piece. */
  lemma {:induction false} SplitWithoutSeparator(p: string, sep: string)
    requires |sep| > 0 && Count(p, sep) == 0
    ensures Split(p, sep) == [p]
    decreases |p|
  {
    if |p| < |sep| {
    } else {
      assert p[..|sep|] != sep;
      SplitWithoutSeparator(p[1..], sep);
      assert [p[0]] + p[1..] == p;
    }
  }

  /** A two-character separator whose characters differ cannot straddle a piece boundary. */
  predicate Unbordered(sep: string)
  {
    |sep| == 2 && sep[0] != sep[1]
  }

  /** The first separator after a separator-free piece ends that piece. */
  lemma {:induction false} SplitFirstPiece(p: string, sep: string, r: string)
    requires Unbordered(sep) && Count(p, sep) == 0
    ensures Split(p + sep + r, sep) == [p] + Split(r, sep)
    decreases |p|
  {
    var s := p + sep + r;
    if |p| == 0 {
      assert s[..|sep|] == sep;
      assert s[|sep|..] == r;
    } else {
      assert s[..2] != sep by {
        if |p| >= 2 {
          assert s[..2] == p[..2];
        } else {
          assert s[..2] == [p[0], sep[0]];
        }
      }
      assert Count(p[1..], sep) == 0 by {
        if |p| >= 2 {
          assert p[..2] != sep;
        }
      }
      SplitFirstPiece(p[1..], sep, r);
      assert s[1..] == p[1..] + sep + r;
      assert [p[0]] + p[1..] == p;
    }
  }

  /**
   * Splitting a join gives the parts back, when no part contains the
   * separator and the separator cannot overlap itself.
   */
  lemma {:induction false} SplitJoin(parts: seq<string>, sep: string)
    requires Unbordered(sep) && |parts| >= 1
    requires forall i :: 0 <= i < |parts| ==> Count(parts[i], sep) == 0
    ensures Split(Join(parts, sep), sep) == parts
    decreases |parts|
  {
    if |parts| == 1 {
      SplitWithoutSeparator(parts[0], sep);
    } else {
      SplitJoin(parts[1..], sep);
      SplitFirstPiece(parts[0], sep, Join(parts[1..], sep));
      assert [parts[0]] + parts[1..] == parts;
    }
  }
}
