/**
 * Generic sequence operations used by the text assembly and the stream framing:
 * joining with a separator (Python's `sep.join(parts)`), splitting on a separator
 * (Python's `s.split(sep)`), and terminator framing (every part followed by one
 * delimiter, as the streaming frames are).
 */
module Seqs {
  import opened Wrappers

  /** The parts glued together with one `d` between neighbours; `[]` for no parts. */
  function Join<T>(parts: seq<seq<T>>, d: T): seq<T>
  {
    if |parts| == 0 then []
    else if |parts| == 1 then parts[0]
    else parts[0] + [d] + Join(parts[1..], d)
  }

  /** The maximal runs of `s` between occurrences of `d`; always at least one piece. */
  function Split<T(==)>(s: seq<T>, d: T): (pieces: seq<seq<T>>)
    ensures |pieces| >= 1
    decreases |s|
  {
    if s == [] then [[]]
    else
      var rest := Split(s[1..], d);
      if s[0] == d then [[]] + rest
      else [[s[0]] + rest[0]] + rest[1..]
  }

  /** The concatenation of all the chunks, in order. */
  function Flatten<T>(chunks: seq<seq<T>>): seq<T>
  {
    if chunks == [] then [] else chunks[0] + Flatten(chunks[1..])
  }

  /** Every part followed by one terminator `d`. */
  function Framed<T>(parts: seq<seq<T>>, d: T): seq<T>
  {
    if parts == [] then [] else parts[0] + [d] + Framed(parts[1..], d)
  }

  /**
   * The parts of a terminator-framed sequence: `None` when bytes follow the last
   * terminator (a partial frame at the end of the stream).
   */
  function Unframe<T(==)>(s: seq<T>, d: T): Option<seq<seq<T>>>
  {
    if s == [] then Some([])
    else
      var pieces := Split(s, d);
      if pieces[|pieces| - 1] == [] then Some(pieces[..|pieces| - 1]) else None
  }

  /** No part contains the delimiter. */
  predicate Clean<T(==)>(parts: seq<seq<T>>, d: T)
  {
    forall i :: 0 <= i < |parts| ==> d !in parts[i]
  }

  lemma {:induction false} SplitNoDelimiter<T>(p: seq<T>, d: T)
    requires d !in p
    ensures Split(p, d) == [p]
    decreases |p|
  {
    if p != [] {
      SplitNoDelimiter(p[1..], d);
      assert [p[0]] + p[1..] == p;
    }
  }

  lemma {:induction false} SplitPrefix<T>(p: seq<T>, d: T, rest: seq<T>)
    requires d !in p
    ensures Split(p + [d] + rest, d) == [p] + Split(rest, d)
    decreases |p|
  {
    var s := p + [d] + rest;
    if p == [] {
      assert s[0] == d && s[1..] == rest;
    } else {
      assert s[0] == p[0] && s[1..] == p[1..] + [d] + rest;
      SplitPrefix(p[1..], d, rest);
      assert [p[0]] + p[1..] == p;
    }
  }

  /** Splitting a join of delimiter-free parts gives the parts back. */
  lemma {:induction false} SplitJoin<T>(parts: seq<seq<T>>, d: T)
    requires |parts| >= 1 && Clean(parts, d)
    ensures Split(Join(parts, d), d) == parts
  {
    if |parts| == 1 {
      SplitNoDelimiter(parts[0], d);
    } else {
      assert Clean(parts[1..], d) by {
        forall i | 0 <= i < |parts[1..]| ensures d !in parts[1..][i] {
          assert parts[1..][i] == parts[i + 1];
        }
      }
      SplitJoin(parts[1..], d);
      SplitPrefix(parts[0], d, Join(parts[1..], d));
      assert [parts[0]] + parts[1..] == parts;
    }
  }

  /** Joining the pieces of a split gives the original sequence back. */
  lemma {:induction false} JoinSplit<T>(s: seq<T>, d: T)
    ensures Join(Split(s, d), d) == s
    decreases |s|
  {
    if s != [] {
      var rest := Split(s[1..], d);
      JoinSplit(s[1..], d);
      if s[0] == d {
        assert ([[]] + rest)[1..] == rest;
        assert [s[0]] + s[1..] == s;
      } else if |rest| == 1 {
        assert [s[0]] + s[1..] == s;
      } else {
        var pieces := [[s[0]] + rest[0]] + rest[1..];
        assert pieces[1..] == rest[1..];
        assert Join(rest, d) == rest[0] + [d] + Join(rest[1..], d);
        assert [s[0]] + s[1..] == s;
      }
    }
  }

  /** Framing is joining with one empty part added at the end. */
  lemma {:induction false} FramedIsJoin<T>(parts: seq<seq<T>>, d: T)
    requires |parts| >= 1
    ensures Framed(parts, d) == Join(parts + [[]], d)
  {
    var ext := parts + [[]];
    assert ext[0] == parts[0] && ext[1..] == parts[1..] + [[]];
    if |parts| > 1 {
      FramedIsJoin(parts[1..], d);
    }
  }

  /** Unframing a framed sequence of delimiter-free parts recovers exactly those parts. */
  lemma UnframeFramed<T>(parts: seq<seq<T>>, d: T)
    requires Clean(parts, d)
    ensures Unframe(Framed(parts, d), d) == Some(parts)
  {
    if parts != [] {
      var ext := parts + [[]];
      FramedIsJoin(parts, d);
      assert Clean(ext, d) by {
        forall i | 0 <= i < |ext| ensures d !in ext[i] {
          if i < |parts| { assert ext[i] == parts[i]; }
        }
      }
      SplitJoin(ext, d);
      assert ext[..|ext| - 1] == parts;
    }
  }

  /** A non-empty sequence whose last element is not the terminator is a framing error. */
  lemma UnframePartial<T>(s: seq<T>, d: T)
    requires s != [] && s[|s| - 1] != d
    ensures Unframe(s, d) == None
  {
    JoinSplit(s, d);
    var pieces := Split(s, d);
    if pieces[|pieces| - 1] == [] {
      JoinLastEmpty(pieces, d);
    }
  }

  /** A join whose last part is empty ends with the delimiter (or is empty). */
  lemma {:induction false} JoinLastEmpty<T>(parts: seq<seq<T>>, d: T)
    requires |parts| >= 1 && parts[|parts| - 1] == []
    ensures var j := Join(parts, d); j == [] || j[|j| - 1] == d
  {
    if |parts| > 1 {
      JoinLastEmpty(parts[1..], d);
      var j := Join(parts[1..], d);
      if j != [] {
        assert (parts[0] + [d] + j)[|parts[0] + [d] + j| - 1] == j[|j| - 1];
      }
    }
  }

  /** Concatenating chunks that are each a part plus a terminator is framing those parts. */
  lemma {:induction false} FlattenFrames<T>(chunks: seq<seq<T>>, parts: seq<seq<T>>, d: T)
    requires |chunks| == |parts|
    requires forall k :: 0 <= k < |chunks| ==> chunks[k] == parts[k] + [d]
    ensures Flatten(chunks) == Framed(parts, d)
  {
    if chunks != [] {
      FlattenFrames(chunks[1..], parts[1..], d);
    }
  }

  /** The total length of the parts. */
  function SumLengths<T>(parts: seq<seq<T>>): nat
  {
    if parts == [] then 0 else |parts[0]| + SumLengths(parts[1..])
  }

  /** A join adds exactly one delimiter between each pair of neighbouring parts. */
  lemma {:induction false} JoinLength<T>(parts: seq<seq<T>>, d: T)
    requires |parts| >= 1
    ensures |Join(parts, d)| == SumLengths(parts) + |parts| - 1
  {
    if |parts| > 1 {
      JoinLength(parts[1..], d);
    }
  }
}
