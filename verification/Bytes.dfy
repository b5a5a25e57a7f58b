/** Byte buffers: copying between them, and slices. */
module Bytes {
  import opened Common

  /** The bytes at positions lo to hi. */
  ghost function Span(a: array<byte>, lo: nat, hi: nat): (s: seq<byte>)
    requires lo <= hi <= a.Length
    reads a
    ensures |s| == hi - lo
  {
    if lo == hi then [] else Span(a, lo, hi - 1) + [a[hi - 1]]
  }

  lemma {:induction false} SpanIs(a: array<byte>, lo: nat, hi: nat)
    requires lo <= hi <= a.Length
    ensures Span(a, lo, hi) == a[lo..hi]
  {
    if lo < hi { SpanIs(a, lo, hi - 1); }
  }

  lemma SpanJoin(a: array<byte>, x: nat, y: nat, z: nat)
    requires x <= y <= z <= a.Length
    ensures Span(a, x, z) == Span(a, x, y) + Span(a, y, z)
  {
    SpanIs(a, x, y);
    SpanIs(a, y, z);
    SpanIs(a, x, z);
  }

  lemma SpanOfSpan(a: array<byte>, off: nat, size: nat, x: nat, y: nat)
    requires off + size <= a.Length && x <= y <= size
    ensures Span(a, off, off + size)[x..y] == Span(a, off + x, off + y)
  {
    SpanIs(a, off, off + size);
    SpanIs(a, off + x, off + y);
    var l, r := Span(a, off, off + size)[x..y], Span(a, off + x, off + y);
    assert forall i :: 0 <= i < y - x ==> l[i] == r[i];
  }

  /** Copies n bytes; what was in dst from lo on is followed by them. */
  method Copy(dst: array<byte>, at: nat, src: array<byte>, from: nat, n: nat, ghost lo: nat)
    requires dst != src && lo <= at && at + n <= dst.Length && from + n <= src.Length
    modifies dst
    ensures Span(dst, lo, at + n) == old(Span(dst, lo, at)) + old(Span(src, from, from + n))
  {
    ghost var before, piece := dst[lo..at], src[from..from + n];
    SpanIs(dst, lo, at);
    SpanIs(src, from, from + n);
    forall i | 0 <= i < n { dst[at + i] := src[from + i]; }
    SpanIs(dst, lo, at + n);
    assert dst[lo..at] == before;
    assert forall i :: 0 <= i < n ==> dst[at..at + n][i] == piece[i];
    assert dst[lo..at + n] == dst[lo..at] + dst[at..at + n];
  }

  /** Writes bytes behind what is there from lo on. */
  method Put(dst: array<byte>, ghost lo: nat, at: nat, s: seq<byte>)
    requires lo <= at && at + |s| <= dst.Length
    modifies dst
    ensures Span(dst, lo, at) == old(Span(dst, lo, at)) && Span(dst, at, at + |s|) == s
    ensures Span(dst, lo, at + |s|) == old(Span(dst, lo, at)) + s
  {
    var n := |s|;
    ghost var before := dst[lo..at];
    SpanIs(dst, lo, at);
    forall i | 0 <= i < n { dst[at + i] := s[i]; }
    SpanIs(dst, lo, at);
    SpanIs(dst, at, at + n);
    assert dst[lo..at] == before;
    assert forall i :: 0 <= i < n ==> dst[at..at + n][i] == s[i];
    SpanJoin(dst, lo, at, at + n);
  }
}
