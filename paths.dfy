/** URL paths as lists of '/'-separated segments, and reading a path back into its segments. */
module Paths {

  /** True when `s` can stand between two slashes of a path. */
  predicate IsSegment(s: string) {
    forall i :: 0 <= i < |s| ==> s[i] != '/'
  }

  /** "/" + segs[0] + "/" + segs[1] + ...; the empty list gives "". */
  function Path(segs: seq<string>): (p: string)
    ensures segs != [] ==> |p| >= 1 && p[0] == '/'
  {
    if segs == [] then "" else "/" + segs[0] + Path(segs[1..])
  }

  /** Appending a segment appends "/" and the segment to the path. */
  lemma {:induction false} PathSnoc(segs: seq<string>, seg: string)
    ensures Path(segs + [seg]) == Path(segs) + "/" + seg
    decreases |segs|
  {
    if segs == [] {
      assert segs + [seg] == [seg];
    } else {
      assert (segs + [seg])[0] == segs[0] && (segs + [seg])[1..] == segs[1..] + [seg];
      PathSnoc(segs[1..], seg);
    }
  }

  /** Splits `s` at its first '/': the segment before it, and the rest starting at that '/' (or ""). */
  function ReadSegment(s: string): (r: (string, string))
    ensures r.0 + r.1 == s
    ensures IsSegment(r.0)
    ensures r.1 == "" || r.1[0] == '/'
  {
    if s == [] || s[0] == '/' then ("", s)
    else
      var (seg, rest) := ReadSegment(s[1..]);
      ([s[0]] + seg, rest)
  }

  /** The segments of a path; a string that does not start with '/' has none. */
  function Segments(p: string): seq<string>
    decreases |p|
  {
    if p == [] || p[0] != '/' then []
    else
      var (seg, rest) := ReadSegment(p[1..]);
      assert |rest| < |p| by { assert seg + rest == p[1..]; }
      [seg] + Segments(rest)
  }

  /** Reading a segment back off the front of `seg + rest`. */
  lemma {:induction false} ReadSegmentOfConcat(seg: string, rest: string)
    requires IsSegment(seg)
    requires rest == "" || rest[0] == '/'
    ensures ReadSegment(seg + rest) == (seg, rest)
    decreases |seg|
  {
    if seg != [] {
      assert (seg + rest)[0] == seg[0] && (seg + rest)[1..] == seg[1..] + rest;
      ReadSegmentOfConcat(seg[1..], rest);
      assert [seg[0]] + seg[1..] == seg;
    } else {
      assert seg + rest == rest;
    }
  }

  /** A path built from slash-free segments reads back as exactly those segments. */
  lemma {:induction false} SegmentsOfPath(segs: seq<string>)
    requires forall i :: 0 <= i < |segs| ==> IsSegment(segs[i])
    ensures Segments(Path(segs)) == segs
    decreases |segs|
  {
    if segs != [] {
      var p := Path(segs);
      var tail := Path(segs[1..]);
      assert p[1..] == segs[0] + tail;
      ReadSegmentOfConcat(segs[0], tail);
      SegmentsOfPath(segs[1..]);
    }
  }
}
