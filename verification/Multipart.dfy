/** Multipart messages as the parts that go through a pipe. */
module Multipart {

  /** Part number `part` of message number `msg`. */
  datatype Part = Part(msg: nat, part: nat, last: bool)

  ghost predicate Before(x: Part, y: Part) {
    x.msg < y.msg || (x.msg == y.msg && x.part < y.part && !x.last)
  }

  ghost predicate JoinsAt(h: seq<Part>, i: nat)
    requires i < |h|
  {
    && (h[i].part > 0 ==> i > 0 && h[i - 1] == Part(h[i].msg, h[i].part - 1, false))
    && (!h[i].last && i + 1 < |h| ==> h[i + 1].msg == h[i].msg && h[i + 1].part == h[i].part + 1)
  }

  /** Messages follow each other in order, each with all its parts; the last one may still be open. */
  ghost predicate Whole(h: seq<Part>, open: bool) {
    && (forall i {:trigger JoinsAt(h, i)} :: 0 <= i < |h| ==> JoinsAt(h, i))
    && (forall i, j :: 0 <= i < j < |h| ==> Before(h[i], h[j]))
    && (h != [] && !h[|h| - 1].last ==> open)
  }

  /** What may follow a part: the next part of the same message, or a new message after the last one. */
  predicate Follows(x: Part, y: Part) {
    if x.last then y.part == 0 else y.msg == x.msg && y.part == x.part + 1
  }

  /** Takes back the parts of an incomplete message. */
  function Rollback(h: seq<Part>): seq<Part> {
    if h == [] || h[|h| - 1].last then h else Rollback(h[..|h| - 1])
  }

  /** What is complete stays: of the parts, those up to the last one that ends a message. */
  lemma {:induction false} RollbackPrefix(h: seq<Part>)
    ensures Rollback(h) <= h && (Rollback(h) != [] ==> h[|Rollback(h)| - 1].last)
    ensures forall i :: |Rollback(h)| <= i < |h| ==> !h[i].last
  {
    if h != [] && !h[|h| - 1].last { RollbackPrefix(h[..|h| - 1]); }
  }

  lemma {:induction false} RollbackOk(h: seq<Part>, open: bool, msg: nat)
    requires Whole(h, open) && forall i :: 0 <= i < |h| ==> h[i].msg <= msg
    requires h != [] && !h[|h| - 1].last ==> h[|h| - 1].msg == msg
    ensures Rollback(h) <= h && Whole(Rollback(h), false)
    ensures h != [] && !h[|h| - 1].last ==> forall i :: 0 <= i < |Rollback(h)| ==> Rollback(h)[i].msg < msg
  {
    if h != [] && !h[|h| - 1].last {
      var n := |h| - 1;
      var g := h[..n];
      forall i | 0 <= i < |g| ensures JoinsAt(g, i) { assert JoinsAt(h, i); }
      if g != [] {
        assert JoinsAt(h, n - 1) && Before(h[n - 1], h[n]);
        if g[n - 1].last {
          forall i | 0 <= i < n ensures g[i].msg < msg {
            assert Before(h[n - 1], h[n]);
            if i < n - 1 { assert Before(h[i], h[n - 1]); }
          }
        }
      }
      RollbackOk(g, true, msg);
    }
  }

  /** One more part of the message that is open, or the first part of another one. */
  lemma WroteOk(h: seq<Part>, open: bool, x: Part)
    requires Whole(h, open) && forall i :: 0 <= i < |h| ==> h[i].msg < x.msg || (h[i].msg == x.msg && open)
    requires if open then h != [] && x.part > 0 && h[|h| - 1] == Part(x.msg, x.part - 1, false) else x.part == 0
    ensures Whole(h + [x], !x.last)
  {
    var g := h + [x];
    forall i | 0 <= i < |g| ensures JoinsAt(g, i) {
      if i < |h| { assert JoinsAt(h, i); }
    }
    forall i, j | 0 <= i < j < |g| ensures Before(g[i], g[j]) {
      if j < |h| { assert Before(h[i], h[j]); }
      else if i < |h| - 1 { assert Before(h[i], h[|h| - 1]); }
    }
  }
}
