/** ReadPacket and WritePacket of carrier.go as one goroutine runs them. A connection's
    writes may stop and fail at any byte, and its input may end anywhere. */
module StreamCarriers {
  import opened Messages
  import opened Wire
  import opened Framing

  lemma PartWritten(frames: seq<Bytes>, p: Bytes, part: Bytes)
    requires AllSendable(frames) && PartOf(part, p)
    ensures Written(frames, FrameAll(frames) + part)
  {
  }

  lemma FrameWritten(frames: seq<Bytes>, p: Bytes)
    requires AllSendable(frames) && Sendable(p)
    ensures FrameAll(frames) + Put(|p|, 4) + p == FrameAll(frames + [p])
    ensures Written(frames + [p], FrameAll(frames + [p]))
  {
    FrameSnoc(frames, p);
    EmptyIsPartial();
    assert FrameAll(frames) + Put(|p|, 4) + p == FrameAll(frames) + Frame(p);
    assert FrameAll(frames + [p]) + [] == FrameAll(frames + [p]);
  }

  /** What a connection stands for: `sound` if its bytes are those of its frames and packets;
      how many writes failed on it, how many reads brought nothing. */
  datatype Account = Account(closed: bool, sound: bool, frames: seq<Bytes>, got: seq<Bytes>, faults: nat, ends: nat)

  /** Whether both directions stand at a frame boundary, and the connection is open. */
  datatype Footing = Footing(level: bool, open: bool)

  const BLANK := Account(false, true, [], [], 0, 0)

  class NetConn {
    var closed: bool
    ghost var wire: Bytes          // written so far
    ghost var frames: seq<Bytes>   // packets completed by WritePacket
    const inbox: Bytes             // what the peer's bytes will turn out to be
    var pos: nat                   // read so far
    ghost var got: seq<Bytes>      // packets returned by ReadPacket
    const steady: bool             // takes bytes as long as it is open
    ghost var faults: nat          // writes that failed or took nothing
    ghost var ends: nat            // reads that brought nothing

    ghost predicate Valid()
      reads this
    {
      && Written(frames, wire)
      && AllSendable(got) && pos <= |inbox| && FrameAll(got) <= inbox[..pos]
    }

    ghost function Standing(): Account
      reads this
    {
      Account(closed, Valid(), frames, got, faults, ends)
    }

    /** Both directions stand at a frame boundary. */
    ghost predicate AtBoundary()
      reads this
    {
      Valid() && wire == FrameAll(frames) && inbox[..pos] == FrameAll(got)
    }

    /** The four bytes read last. */
    ghost function LastFour(): Bytes
      reads this
    {
      if 4 <= pos <= |inbox| then inbox[pos - 4..pos] else []
    }

    ghost function Stands(): Footing
      reads this
    {
      Footing(AtBoundary(), !closed)
    }

    constructor (inbox: Bytes, steady: bool)
      ensures AtBoundary() && Standing() == BLANK && pos == 0 && this.inbox == inbox && this.steady == steady
    {
      this.steady, this.faults, this.ends := steady, 0, 0;
      this.closed, this.wire, this.frames := false, [], [];
      this.inbox, this.pos, this.got := inbox, 0, [];
      new;
      EmptyIsPartial();
      assert FrameAll([]) + [] == [];
    }

    /** One Write call of the network stack; a failing one leaves a byte unwritten. */
    method Write(p: Bytes) returns (n: nat, err: bool)
      requires p != []
      modifies this`wire, this`faults
      ensures n <= |p| && wire == old(wire) + p[..n]
      ensures err ==> n < |p|
      ensures closed ==> err
      ensures faults == old(faults) + if err || n == 0 then 1 else 0
      ensures steady && !closed ==> !err && n > 0
    {
      if closed {
        n, err := 0, true;
      } else if steady {
        n :| 0 < n <= |p|;
        err := false;
      } else {
        n :| n <= |p|;
        err := *;
        err := err && n < |p|;
      }
      wire := wire + p[..n];
      faults := faults + if err || n == 0 then 1 else 0;
    }

    /** One Read call: some bytes, or none when the connection failed or ended. */
    method Read(max: nat) returns (b: Bytes)
      requires pos <= |inbox| && max > 0
      modifies this`pos, this`ends
      ensures |b| <= max && old(pos) + |b| <= |inbox| && pos == old(pos) + |b| && b == inbox[old(pos)..pos]
      ensures ends == old(ends) + if b == [] then 1 else 0
    {
      var n: nat := 0;
      if !closed {
        n :| 0 <= n <= max && pos + n <= |inbox|;
      }
      b := inbox[pos..pos + n];
      pos := pos + n;
      ends := ends + if b == [] then 1 else 0;
    }

    method Close()
      modifies this`closed
      ensures closed
    {
      closed := true;
    }
  }

  /** writeAll: everything, or a proper beginning and an error, which only a failed write
      brings about. */
  method WriteAll(w: NetConn, data: Bytes) returns (err: bool)
    modifies w`wire, w`faults
    ensures w.faults == old(w.faults) + if err then 1 else 0
    ensures w.steady && !w.closed ==> !err
    ensures !err ==> w.wire == old(w.wire) + data
    ensures err ==> exists k :: 0 <= k < |data| && w.wire == old(w.wire) + data[..k]
  {
    var p := data;
    while |p| > 0
      invariant |p| <= |data| && p == data[|data| - |p|..]
      invariant w.wire == old(w.wire) + data[..|data| - |p|] && w.faults == old(w.faults)
      decreases |p|
    {
      var n, e := w.Write(p);
      ghost var k := |data| - |p| + n;
      assert data[..|data| - |p|] + p[..n] == data[..k];
      if e || n == 0 {
        return true;
      }
      p := p[n..];
    }
    assert data[..|data|] == data;
    return false;
  }

  /** io.ReadFull: exactly `n` bytes, or fewer and an error, which only a read without bytes
      brings about. */
  method ReadFull(c: NetConn, n: nat) returns (b: Bytes, err: bool)
    requires c.pos <= |c.inbox|
    modifies c`pos, c`ends
    ensures old(c.pos) <= c.pos <= |c.inbox| && b == c.inbox[old(c.pos)..c.pos]
    ensures if err then |b| < n else |b| == n
    ensures c.ends == old(c.ends) + if err then 1 else 0
  {
    b := [];
    while |b| < n
      invariant |b| <= n && old(c.pos) <= c.pos <= |c.inbox| && b == c.inbox[old(c.pos)..c.pos]
      invariant c.ends == old(c.ends)
      decreases n - |b|
    {
      var more := c.Read(n - |b|);
      if more == [] {
        return b, true;
      }
      assert c.inbox[old(c.pos)..c.pos] == b + more;
      b := b + more;
    }
    return b, false;
  }

  /** Header, then payload. */
  method WriteFrame(c: NetConn, p: Bytes) returns (err: bool)
    requires c.AtBoundary() && Sendable(p)
    modifies c`wire, c`frames, c`faults
    ensures c.faults == old(c.faults) + if err then 1 else 0
    ensures c.steady && !c.closed ==> !err
    ensures !err ==> c.AtBoundary() && c.frames == old(c.frames) + [p]
    ensures err ==> c.Valid() && c.frames == old(c.frames)
  {
    var hdr := Put(|p|, 4);
    err := WriteAll(c, hdr);
    if err {
      ghost var k :| 0 <= k < |hdr| && c.wire == old(c.wire) + hdr[..k];
      assert PartOf(hdr[..k], p);
      PartWritten(c.frames, p, hdr[..k]);
      return;
    }
    err := WriteAll(c, p);
    if err {
      ghost var k :| 0 <= k < |p| && c.wire == old(c.wire) + hdr + p[..k];
      assert c.wire == old(c.wire) + (hdr + p[..k]);
      assert PartOf(hdr + p[..k], p);
      PartWritten(c.frames, p, hdr + p[..k]);
      return;
    }
    FrameWritten(c.frames, p);
    c.frames := c.frames + [p];
  }

  lemma FrameRead(got: seq<Bytes>, hdr: Bytes, p: Bytes)
    requires |hdr| == 4 && Get(hdr) == |p|
    ensures FrameAll(got) + hdr + p == FrameAll(got + [p])
  {
    PutGet(hdr);
    FrameSnoc(got, p);
    assert FrameAll(got) + hdr + p == FrameAll(got) + (hdr + p);
  }

  datatype Outcome = Got(packet: Bytes) | BadLength | Broken

  /** A header that announces a packet the reader does not take. */
  predicate Refused(hdr: Bytes, size: nat)
  {
    Get(hdr) == 0 || Get(hdr) > MAX_FRAME || Get(hdr) > size
  }

  /** One frame from a connection. It is broken only after a read without bytes, and refused
      exactly if the four bytes of its header say so. */
  method ReadFrame(c: NetConn, size: nat) returns (r: Outcome)
    requires c.AtBoundary()
    modifies c`pos, c`got, c`ends
    ensures r.Got? ==> c.AtBoundary() && c.got == old(c.got) + [r.packet] && 0 < |r.packet| <= size
    ensures !r.Got? ==> c.Valid() && c.got == old(c.got)
    ensures c.ends == old(c.ends) + if r.Broken? then 1 else 0
    ensures r.BadLength? ==> c.pos == old(c.pos) + 4 && Refused(c.inbox[old(c.pos)..c.pos], size)
    ensures c.pos >= old(c.pos) + 4 && !r.BadLength? ==> !Refused(c.inbox[old(c.pos)..old(c.pos) + 4], size)
  {
    var hdr, err := ReadFull(c, 4);
    assert c.inbox[..c.pos] == c.inbox[..old(c.pos)] + hdr;
    if err {
      return Broken;
    }
    var n := Get(hdr);
    if n == 0 || n > MAX_FRAME || n > size {
      return BadLength;
    }
    ghost var mid := c.pos;
    assert hdr == c.inbox[old(c.pos)..old(c.pos) + 4];
    var p;
    p, err := ReadFull(c, n);
    assert c.inbox[..c.pos] == c.inbox[..mid] + p;
    assert c.inbox[..c.pos] == FrameAll(c.got) + hdr + p;
    if err {
      assert FrameAll(c.got) <= c.inbox[..c.pos];
      return Broken;
    }
    FrameRead(c.got, hdr, p);
    c.got := c.got + [p];
    return Got(p);
  }

  /** Connections given up: closed after `faults` failed writes and `ends` reads without
      bytes, and otherwise as the call found or made them, but for bytes of the start of one
      more frame. */
  ghost predicate GivenUp(ts: seq<NetConn>, found: NetConn?, was: Account, faults: nat, ends: nat)
    reads ts
  {
    forall t :: t in ts ==> t.Standing() == Dropped(if t == found then was else BLANK, faults, ends)
  }

  function Dropped(a: Account, faults: nat, ends: nat): Account
  {
    a.(closed := true, faults := a.faults + faults, ends := a.ends + ends)
  }

  lemma OneMore(ts: seq<NetConn>, t: NetConn, found: NetConn?, was: Account, faults: nat, ends: nat)
    requires GivenUp(ts, found, was, faults, ends)
    requires t.Standing() == Dropped(if t == found then was else BLANK, faults, ends)
    ensures GivenUp(ts + [t], found, was, faults, ends)
  {
  }

  class StreamCarrier {
    var conn: NetConn?
    var closed: bool
    const steady: bool          // a connection can always be had, and a steady one
    ghost var refusals: nat     // dials or accepts that failed

    /** The published connection is open and stands at a frame boundary. */
    ghost predicate Valid()
      reads this, conn
    {
      && (conn != null ==> conn.Stands() == Footing(true, true) && (steady ==> conn.steady))
      && (closed ==> conn == null)
    }

    constructor (steady: bool)
      ensures Valid() && conn == null && !closed && this.steady == steady && refusals == 0
    {
      conn, closed, this.steady, refusals := null, false, steady, 0;
    }

    /** Dialling or accepting may fail, and what the peer will send is not known. */
    method Dial() returns (c: NetConn?)
      modifies this`refusals
      ensures c == null ==> !steady && refusals == old(refusals) + 1
      ensures c != null ==> fresh(c) && c.AtBoundary() && c.Standing() == BLANK && c.pos == 0
      ensures c != null ==> (steady ==> c.steady) && refusals == old(refusals)
    {
      var dialled: bool := *;
      var inbox: Bytes := *;
      if !dialled && !steady {
        refusals := refusals + 1;
        return null;
      }
      c := new NetConn(inbox, steady);
    }

    /** Without a connection only if closed or if none could be had. */
    method EnsureConn() returns (c: NetConn?)
      requires Valid()
      modifies this`conn, this`refusals
      ensures Valid() && c == conn
      ensures closed ==> c == null
      ensures old(conn) != null ==> c == old(conn)
      ensures old(conn) == null && c != null ==> fresh(c) && c.Standing() == BLANK && c.pos == 0
      ensures refusals == old(refusals) + if c == null && !closed then 1 else 0
      ensures steady && !closed ==> c != null
    {
      if closed {
        return null;
      }
      if conn != null {
        return conn;
      }
      c := Dial();
      conn := c;
    }

    method ResetConn(c: NetConn)
      modifies this`conn, c`closed
      ensures conn == if old(conn) == c then null else old(conn)
      ensures c.closed == (old(conn) == c || old(c.closed))
    {
      if conn == c {
        c.Close();
        conn := null;
      }
    }

    method Close()
      requires Valid()
      modifies this`conn, this`closed, conn
      ensures Valid() && closed && conn == null
      ensures old(conn) != null ==> old(conn).closed
    {
      closed := true;
      if conn != null {
        conn.Close();
        conn := null;
      }
    }

    ghost function Found(): Account
      reads this, conn
    {
      if conn == null then BLANK else conn.Standing()
    }

    /** On success the packet is the one more complete frame of the current connection, old or
        new; the other connections the call used are those `left`, closed after a failed write
        without a further frame. On failure no connection has one more, and the packet was not
        sendable, or the carrier closed, or no connection to be had, or two in turn failed.
        Those not named are not touched. */
    method WritePacket(p: Bytes) returns (ok: bool, ghost left: seq<NetConn>)
      requires Valid()
      modifies this`conn, this`refusals, conn
      ensures Valid() && |left| <= 2
      ensures forall t :: t in left ==> t == old(conn) || fresh(t)
      ensures GivenUp(left, old(conn), old(Found()), 1, 0)
      ensures ok ==> conn != null && conn !in left && (conn == old(conn) || fresh(conn))
      ensures ok ==> conn.frames == (if conn == old(conn) then old(conn.frames) else []) + [p]
      ensures old(conn) != null && old(conn) !in left ==> conn == old(conn)
      ensures old(conn) != null && old(conn) !in left && !ok ==> Found() == old(Found())
      ensures !ok ==> !Sendable(p) || closed || refusals == old(refusals) + 1 || |left| == 2
      ensures ok ==> Sendable(p) && !closed && refusals == old(refusals)
      ensures steady && Sendable(p) && !closed ==> ok
    {
      left := [];
      ghost var found, was := conn, Found();
      if |p| == 0 || |p| > MAX_FRAME {
        return false, left;
      }
      var attempts := 0;
      while attempts < 2
        invariant Valid() && |left| == attempts <= 2 && refusals == old(refusals)
        invariant attempts == 0 ==> conn == found && Found() == was
        invariant attempts > 0 ==> conn == null && (found != null ==> found in left) && !(steady && !closed)
        invariant forall t :: t in left ==> t == found || fresh(t)
        invariant GivenUp(left, found, was, 1, 0)
        modifies this`conn, this`refusals, conn
      {
        var c;
        ok, c := WriteOnce(p);
        if c == null || ok {
          return ok, left;
        }
        OneMore(left, c, found, was, 1, 0);
        left := left + [c];
        attempts := attempts + 1;
      }
      return false, left;
    }

    /** One attempt of WritePacket on connection `c`, which it gives up if a write fails. */
    method WriteOnce(p: Bytes) returns (ok: bool, c: NetConn?)
      requires Valid() && Sendable(p)
      modifies this`conn, this`refusals, conn
      ensures Valid()
      ensures old(conn) != null ==> c == old(conn)
      ensures old(conn) == null && c != null ==> fresh(c)
      ensures c == null ==> old(conn) == null && conn == null && !ok
      ensures refusals == old(refusals) + if c == null && !closed then 1 else 0
      ensures ok ==> c == conn && c.frames == old(Found()).frames + [p]
      ensures c != null && !ok ==> conn == null && c.Standing() == Dropped(old(Found()), 1, 0)
      ensures steady && !closed ==> ok
    {
      c := EnsureConn();
      if c == null {
        return false, c;
      }
      var err := WriteFrame(c, p);
      if err {
        ResetConn(c);
      }
      ok := !err;
    }

    /** `patience` is how often a failure is retried before the context is done: then, and
        only then, the call is broken off. The packet is the next frame of the connection it
        came from: everything read on that connection so far is exactly the frames of the
        packets returned. The connections `left` were closed after a read without bytes and
        without a packet from them; `bad` was closed because its next header is refused. */
    method ReadPacket(size: nat, patience: nat) returns (r: Outcome, ghost left: seq<NetConn>, ghost bad: NetConn?)
      requires Valid()
      modifies this`conn, this`refusals, conn
      ensures Valid()
      ensures forall t :: t in left ==> t == old(conn) || fresh(t)
      ensures GivenUp(left, old(conn), old(Found()), 0, 1)
      ensures r.Got? ==> conn != null && conn !in left && (conn == old(conn) || fresh(conn)) && |r.packet| <= size
      ensures r.Got? ==> conn.got == (if conn == old(conn) then old(conn.got) else []) + [r.packet]
      ensures r.BadLength? <==> bad != null
      ensures bad != null ==> conn == null && bad !in left && (bad == old(conn) || fresh(bad))
      ensures bad != null ==> bad.Standing() == Dropped(if bad == old(conn) then old(Found()) else BLANK, 0, 0)
      ensures bad != null ==> |bad.LastFour()| == 4 && Refused(bad.LastFour(), size)
      ensures r.Broken? ==> closed || |left| + (refusals - old(refusals)) == patience
      ensures r.Broken? && old(conn) != null && patience > 0 ==> old(conn) in left
    {
      var rounds := patience;
      left, bad := [], null;
      ghost var found, was := conn, Found();
      while rounds > 0
        invariant Valid() && 0 <= rounds <= patience
        invariant left == [] ==> conn == found && Found() == was
        invariant left == [] && found != null ==> rounds == patience
        invariant left != [] ==> conn == null && (found != null ==> found in left)
        invariant forall t :: t in left ==> t == found || fresh(t)
        invariant GivenUp(left, found, was, 0, 1)
        invariant closed || |left| + (refusals - old(refusals)) == patience - rounds
        modifies this`conn, this`refusals, conn
        decreases rounds
      {
        rounds := rounds - 1;
        ghost var c;
        r, c := ReadOnce(size);
        if r.Got? {
          return r, left, null;
        }
        if r.BadLength? {
          return r, left, c;
        }
        if c != null {
          OneMore(left, c, found, was, 0, 1);
          left := left + [c];
        }
      }
      return Broken, left, null;
    }

    /** One round of ReadPacket on connection `c`, which it gives up if it fails. */
    method ReadOnce(size: nat) returns (r: Outcome, ghost c: NetConn?)
      requires Valid()
      modifies this`conn, this`refusals, conn
      ensures Valid()
      ensures old(conn) != null ==> c == old(conn)
      ensures old(conn) == null && c != null ==> fresh(c)
      ensures c == null ==> old(conn) == null && conn == null && r.Broken?
      ensures refusals == old(refusals) + if c == null && !closed then 1 else 0
      ensures r.Got? ==> c != null && c == conn && |r.packet| <= size && c.got == old(Found()).got + [r.packet]
      ensures c != null && !r.Got? ==> conn == null
      ensures c != null && !r.Got? ==> c.Standing() == Dropped(old(Found()), 0, if r.Broken? then 1 else 0)
      ensures r.BadLength? ==> c != null && |c.LastFour()| == 4 && Refused(c.LastFour(), size)
    {
      var used := EnsureConn();
      c := used;
      if used == null {
        return Broken, c;
      }
      r := ReadFrame(used, size);
      if !r.Got? {
        ResetConn(used);
      }
    }
  }
}
