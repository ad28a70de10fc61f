/**
 * Kotlin's `CharSequence.split(delimiter)` for a one-character delimiter and
 * no limit: every occurrence of the delimiter splits, empty pieces are kept,
 * and the empty text splits into one empty piece.
 */
module Strings {

  /**
   * Position of the first `d` in `s` at or after `from`, or `|s|` where
   * Kotlin's `indexOf(d, from)` gives -1.
   */
  function IndexOf(s: string, d: char, from: nat): (i: nat)
    requires from <= |s|
    ensures from <= i <= |s|
    ensures i < |s| ==> s[i] == d
    decreases |s| - from
  {
    if from == |s| then from
    else if s[from] == d then from
    else IndexOf(s, d, from + 1)
  }

  /** No `d` stands between `from` and the position IndexOf finds. */
  lemma {:induction false} IndexOfFirst(s: string, d: char, from: nat)
    requires from <= |s|
    ensures forall k :: from <= k < IndexOf(s, d, from) ==> s[k] != d
    decreases |s| - from
  {
    if from < |s| && s[from] != d {
      IndexOfFirst(s, d, from + 1);
    }
  }

  /**
   * The pieces of `s[start..]` between occurrences of `d`, in order. This is
   * the loop of Kotlin's split: find the next delimiter from the current
   * offset, take the piece before it, continue just after it, and take the
   * rest of the text as the last piece.
   */
  function SplitFrom(s: string, d: char, start: nat): (pieces: seq<string>)
    requires start <= |s|
    ensures |pieces| >= 1
    decreases |s| - start
  {
    var i := IndexOf(s, d, start);
    if i == |s| then [s[start..]] else [s[start..i]] + SplitFrom(s, d, i + 1)
  }

  /** `s.split(d)`. */
  function Split(s: string, d: char): (pieces: seq<string>)
    ensures |pieces| >= 1
  {
    SplitFrom(s, d, 0)
  }

  /** The inverse of Split: the pieces glued back together with `d` between neighbours. */
  function Join(pieces: seq<string>, d: char): string
  {
    if |pieces| == 0 then ""
    else if |pieces| == 1 then pieces[0]
    else pieces[0] + [d] + Join(pieces[1..], d)
  }

  /** How many times `d` occurs in `s`. */
  function Occurrences(s: string, d: char): nat
  {
    multiset(s)[d]
  }

  /** `d` occurs in `s` at or after `from` exactly when IndexOf finds it. */
  lemma IndexOfFinds(s: string, d: char, from: nat)
    requires from <= |s|
    ensures IndexOf(s, d, from) < |s| <==> d in s[from..]
  {
    var i := IndexOf(s, d, from);
    IndexOfFirst(s, d, from);
    if i == |s| {
      forall c | c in s[from..] ensures c != d {
        var m :| 0 <= m < |s| - from && s[from..][m] == c;
        assert s[from + m] == c;
      }
    } else {
      assert s[from..][i - from] == d;
    }
  }

  /**
   * There is a second piece exactly when the text holds the delimiter, and
   * it is the text between the first delimiter and the next one (or the end).
   */
  lemma SplitSecond(s: string, d: char)
    ensures |Split(s, d)| >= 2 <==> d in s
    ensures d in s ==> var i := IndexOf(s, d, 0);
                       i < |s| && Split(s, d)[1] == s[i + 1..IndexOf(s, d, i + 1)]
  {
    IndexOfFinds(s, d, 0);
    assert s[0..] == s;
    var i := IndexOf(s, d, 0);
    if i < |s| {
      var rest := SplitFrom(s, d, i + 1);
      assert Split(s, d) == [s[..i]] + rest;
      var j := IndexOf(s, d, i + 1);
      assert rest[0] == s[i + 1..j];
    }
  }

  /** Joining the pieces of a split gives back the text. */
  lemma {:induction false} JoinSplitFrom(s: string, d: char, start: nat)
    requires start <= |s|
    ensures Join(SplitFrom(s, d, start), d) == s[start..]
    decreases |s| - start
  {
    var i := IndexOf(s, d, start);
    if i < |s| {
      var rest := SplitFrom(s, d, i + 1);
      var pieces := [s[start..i]] + rest;
      assert SplitFrom(s, d, start) == pieces;
      assert |pieces| > 1 && pieces[0] == s[start..i] && pieces[1..] == rest;
      calc {
        Join(pieces, d);
        s[start..i] + [d] + Join(rest, d);
        { JoinSplitFrom(s, d, i + 1); }
        s[start..i] + [d] + s[i + 1..];
        { assert s[i] == d; }
        s[start..];
      }
    }
  }

  /** `Join(s.split(d), d) == s`. */
  lemma JoinSplit(s: string, d: char)
    ensures Join(Split(s, d), d) == s
  {
    JoinSplitFrom(s, d, 0);
    assert s[0..] == s;
  }

  /** No piece of a split contains the delimiter. */
  lemma {:induction false} SplitFromPiecesLackDelimiter(s: string, d: char, start: nat)
    requires start <= |s|
    ensures forall j :: 0 <= j < |SplitFrom(s, d, start)| ==> d !in SplitFrom(s, d, start)[j]
    decreases |s| - start
  {
    var i := IndexOf(s, d, start);
    IndexOfFirst(s, d, start);
    forall c | c in s[start..i] ensures c != d {
      var m :| 0 <= m < i - start && s[start..i][m] == c;
      assert s[start + m] == c;
    }
    if i < |s| {
      SplitFromPiecesLackDelimiter(s, d, i + 1);
      assert SplitFrom(s, d, start) == [s[start..i]] + SplitFrom(s, d, i + 1);
    }
  }

  /** A text in which `d` does not occur at any position has no occurrence of `d`. */
  lemma NoOccurrences(s: string, d: char)
    requires forall k :: 0 <= k < |s| ==> s[k] != d
    ensures Occurrences(s, d) == 0
  {
    assert d !in s;
  }

  /** A split has exactly one piece more than the text has delimiters. */
  lemma {:induction false} SplitFromCount(s: string, d: char, start: nat)
    requires start <= |s|
    ensures |SplitFrom(s, d, start)| == Occurrences(s[start..], d) + 1
    decreases |s| - start
  {
    var i := IndexOf(s, d, start);
    var before := s[start..i];
    assert Occurrences(before, d) == 0 by {
      IndexOfFirst(s, d, start);
      forall k | 0 <= k < |before| ensures before[k] != d {
        assert before[k] == s[start + k];
      }
      NoOccurrences(before, d);
    }
    if i < |s| {
      var rest := SplitFrom(s, d, i + 1);
      assert |SplitFrom(s, d, start)| == 1 + |rest| by {
        assert SplitFrom(s, d, start) == [before] + rest;
      }
      SplitFromCount(s, d, i + 1);
      assert Occurrences(s[start..], d) == Occurrences(s[i + 1..], d) + 1 by {
        assert s[start..] == before + [d] + s[i + 1..];
        assert multiset(s[start..]) == multiset(before) + multiset([d]) + multiset(s[i + 1..]);
      }
    } else {
      assert s[start..] == before;
    }
  }

  /** `s.split(d)` has one piece more than `s` has delimiters. */
  lemma SplitCount(s: string, d: char)
    ensures |Split(s, d)| == Occurrences(s, d) + 1
  {
    SplitFromCount(s, d, 0);
    assert s[0..] == s;
  }

  /** Searching in `p + b` from inside `b` is searching in `b`, shifted by `|p|`. */
  lemma {:induction false} IndexOfShift(p: string, b: string, d: char, from: nat)
    requires from <= |b|
    ensures IndexOf(p + b, d, |p| + from) == |p| + IndexOf(b, d, from)
    decreases |b| - from
  {
    if from < |b| {
      assert (p + b)[|p| + from] == b[from];
      if b[from] != d {
        IndexOfShift(p, b, d, from + 1);
      }
    }
  }

  /** A search that starts before a stretch free of `d` finds what a search after it finds. */
  lemma {:induction false} IndexOfSkips(s: string, d: char, from: nat, until: nat)
    requires from <= until <= |s|
    requires forall k :: from <= k < until ==> s[k] != d
    ensures IndexOf(s, d, from) == IndexOf(s, d, until)
    decreases until - from
  {
    if from < until {
      IndexOfSkips(s, d, from + 1, until);
    }
  }

  /** The first `d` in `t + rest` is right after `t` when `t` holds none and `rest` starts with one (or is empty). */
  lemma IndexOfAfter(t: string, rest: string, d: char)
    requires d !in t
    requires rest == [] || rest[0] == d
    ensures IndexOf(t + rest, d, 0) == |t|
  {
    var s := t + rest;
    forall k | 0 <= k < |t| ensures s[k] != d {
      assert s[k] == t[k];
    }
    IndexOfSkips(s, d, 0, |t|);
  }

  /** A split that starts where no `d` follows yields the rest of the text as its one piece. */
  lemma SplitFromLast(s: string, d: char, start: nat)
    requires start <= |s|
    requires forall k :: start <= k < |s| ==> s[k] != d
    ensures SplitFrom(s, d, start) == [s[start..]]
  {
    IndexOfSkips(s, d, start, |s|);
  }

  /** A split that starts before a stretch free of `d` ended by a `d` yields that stretch first. */
  lemma SplitFromPiece(s: string, d: char, start: nat, end: nat)
    requires start <= end < |s|
    requires forall k :: start <= k < end ==> s[k] != d
    requires s[end] == d
    ensures SplitFrom(s, d, start) == [s[start..end]] + SplitFrom(s, d, end + 1)
  {
    IndexOfSkips(s, d, start, end);
  }

  /**
   * Splitting after a prefix undoes Join: pieces that hold no delimiter come
   * back unchanged, whatever text stands before them.
   */
  lemma {:induction false} SplitFromJoin(prefix: string, pieces: seq<string>, d: char)
    requires |pieces| >= 1
    requires forall j :: 0 <= j < |pieces| ==> d !in pieces[j]
    ensures SplitFrom(prefix + Join(pieces, d), d, |prefix|) == pieces
    decreases |pieces|
  {
    var first := pieces[0];
    var s := prefix + Join(pieces, d);
    var start := |prefix|;
    var end := start + |first|;
    if |pieces| == 1 {
      assert s == prefix + first;
      forall k | start <= k < |s| ensures s[k] != d {
        assert s[k] == first[k - start];
      }
      SplitFromLast(s, d, start);
      assert s[start..] == first;
    } else {
      var next := prefix + first + [d];
      var tail := Join(pieces[1..], d);
      assert s == next + tail by {
        assert Join(pieces, d) == first + [d] + tail;
        assert prefix + (first + [d] + tail) == (prefix + first + [d]) + tail;
      }
      forall k | start <= k < end ensures s[k] != d {
        assert s[k] == first[k - start];
      }
      SplitFromPiece(s, d, start, end);
      assert s[start..end] == first;
      assert |next| == end + 1;
      SplitFromJoin(next, pieces[1..], d);
      assert pieces == [first] + pieces[1..];
    }
  }

  /**
   * Splitting undoes Join: pieces that hold no delimiter come back unchanged.
   * With JoinSplit, Split and Join are inverse bijections between texts and
   * non-empty, delimiter-free piece lists.
   */
  lemma SplitJoin(pieces: seq<string>, d: char)
    requires |pieces| >= 1
    requires forall j :: 0 <= j < |pieces| ==> d !in pieces[j]
    ensures Split(Join(pieces, d), d) == pieces
  {
    SplitFromJoin("", pieces, d);
    assert "" + Join(pieces, d) == Join(pieces, d);
  }
}
