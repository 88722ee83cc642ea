/** Length-prefixed frames on a byte stream. */
module Framing {
  import opened Messages
  import opened Wire

  const MAX_FRAME: nat := 0x10_0000   // 1 << 20

  predicate Sendable(p: Bytes)
  {
    0 < |p| <= MAX_FRAME
  }

  function Frame(p: Bytes): (r: Bytes)
    ensures |r| == 4 + |p|
  {
    Put(|p|, 4) + p
  }

  function FrameAll(ps: seq<Bytes>): Bytes
  {
    if ps == [] then [] else FrameAll(ps[..|ps| - 1]) + Frame(ps[|ps| - 1])
  }

  predicate AllSendable(ps: seq<Bytes>)
  {
    forall i :: 0 <= i < |ps| ==> Sendable(ps[i])
  }

  /** The bytes are the beginning of a frame, not a whole one. */
  ghost predicate Partial(b: Bytes)
  {
    exists p :: PartOf(b, p)
  }

  predicate PartOf(b: Bytes, p: Bytes)
  {
    Sendable(p) && |b| < |Frame(p)| && b <= Frame(p)
  }

  lemma EmptyIsPartial()
    ensures Partial([])
  {
    var p: Bytes := [0];
    assert PartOf([], p);
  }

  /** The stream is these complete frames, then at most the beginning of one. */
  ghost predicate Written(frames: seq<Bytes>, wire: Bytes)
  {
    AllSendable(frames) && exists tail :: Partial(tail) && wire == FrameAll(frames) + tail
  }

  lemma LengthFits(n: nat)
    requires n <= MAX_FRAME
    ensures n < Pow256(4) && Get(Put(n, 4)) == n
  {
    assert Pow256(4) == 0x1_0000_0000 by { assert Pow256(2) == 0x1_0000; }
    GetPut(n, 4);
  }

  lemma FrameSnoc(ps: seq<Bytes>, p: Bytes)
    ensures FrameAll(ps + [p]) == FrameAll(ps) + Frame(p)
  {
    assert (ps + [p])[..|ps|] == ps;
  }

  lemma FrameOne(p: Bytes)
    ensures FrameAll([p]) == Frame(p)
  {
    FrameSnoc([], p);
  }

  lemma {:induction false} FrameAllAppend(ps: seq<Bytes>, qs: seq<Bytes>)
    ensures FrameAll(ps + qs) == FrameAll(ps) + FrameAll(qs)
  {
    if qs == [] {
      assert ps + qs == ps;
    } else {
      var front, last := qs[..|qs| - 1], qs[|qs| - 1];
      FrameAllAppend(ps, front);
      assert qs == front + [last] && ps + qs == (ps + front) + [last];
      FrameSnoc(ps + front, last);
      FrameSnoc(front, last);
    }
  }

  /** Two frames at the same place of a stream are the same frame. */
  lemma FrameDetermined(p: Bytes, q: Bytes, x: Bytes, y: Bytes)
    requires Sendable(p) && Sendable(q)
    requires Frame(p) + x <= Frame(q) + y || Frame(p) + x == Frame(q) + y
    ensures p == q
  {
    var a, b := Frame(p) + x, Frame(q) + y;
    assert a[..4] == Put(|p|, 4) && b[..4] == Put(|q|, 4);
    assert a[..4] == b[..4];
    LengthFits(|p|);
    LengthFits(|q|);
    assert a[4..4 + |p|] == p && b[4..4 + |p|] == q;
  }

  /** A whole frame never fits into the beginning of another. */
  lemma NoFrameInPartial(p: Bytes, q: Bytes, x: Bytes, b: Bytes)
    requires Sendable(p) && PartOf(b, q)
    ensures !(Frame(p) + x <= b)
  {
    if Frame(p) + x <= b {
      var c := Frame(q)[|b|..];
      assert Frame(q) == b + c;
      assert Frame(p) + x <= Frame(q) + [];
      FrameDetermined(p, q, x, []);
    }
  }

  lemma FrameHead(ps: seq<Bytes>, x: Bytes)
    requires ps != []
    ensures FrameAll(ps) + x == Frame(ps[0]) + (FrameAll(ps[1..]) + x)
  {
    assert ps == [ps[0]] + ps[1..];
    FrameAllAppend([ps[0]], ps[1..]);
    FrameOne(ps[0]);
    assert Frame(ps[0]) + FrameAll(ps[1..]) + x == Frame(ps[0]) + (FrameAll(ps[1..]) + x);
  }

  /** What a reader finds on a stream cut anywhere is a prefix of what was written. */
  lemma {:induction false} DeframePrefix(got: seq<Bytes>, rest: Bytes, sent: seq<Bytes>, tail: Bytes)
    requires AllSendable(got) && AllSendable(sent) && Partial(tail)
    requires FrameAll(got) + rest <= FrameAll(sent) + tail
    ensures got <= sent
    decreases |got|
  {
    if got != [] {
      var x := FrameAll(got[1..]) + rest;
      FrameHead(got, rest);
      if sent == [] {
        var q :| PartOf(tail, q);
        assert FrameAll(sent) + tail == tail;
        NoFrameInPartial(got[0], q, x, tail);
      } else {
        var y := FrameAll(sent[1..]) + tail;
        FrameHead(sent, tail);
        FrameDetermined(got[0], sent[0], x, y);
        CancelPrefix(Frame(got[0]), x, y);
        DeframePrefix(got[1..], rest, sent[1..], tail);
        assert got == [got[0]] + got[1..] && sent == [sent[0]] + sent[1..];
      }
    }
  }

  lemma CancelPrefix(a: Bytes, x: Bytes, y: Bytes)
    requires a + x <= a + y
    ensures x <= y
  {
    assert forall i :: 0 <= i < |x| ==> (a + x)[|a| + i] == x[i];
    forall i | 0 <= i < |x| ensures x[i] == y[i] {
      assert (a + x)[|a| + i] == (a + y)[|a| + i];
    }
  }

  /** The complete frames on a stream are a fact about its bytes: no two readings of them. */
  lemma WrittenUnique(fs: seq<Bytes>, gs: seq<Bytes>, wire: Bytes)
    requires Written(fs, wire) && Written(gs, wire)
    ensures fs == gs
  {
    var x :| Partial(x) && wire == FrameAll(fs) + x;
    var y :| Partial(y) && wire == FrameAll(gs) + y;
    DeframePrefix(fs, x, gs, y);
    DeframePrefix(gs, y, fs, x);
  }
}
