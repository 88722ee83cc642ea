/** One streamCarrier shared by a reader, a writer and Close, as a transition system.
    readMu and writeMu admit one caller each, so the state holds one program counter for
    ReadPacket and one for WritePacket; connectMu is the `Holds` condition; each section
    under connMu is one step. Connections may fail, and reads and writes may stop, at
    any byte. */
module Carrier {
  import opened Messages
  import opened Wire
  import opened Framing

  datatype Conn = Conn(
    wire: Bytes,          // bytes this side wrote
    frames: seq<Bytes>,   // packets whose WritePacket returned nil on it
    inbox: Bytes,         // bytes that arrived from the other side
    read: nat,            // how many of them were read
    got: seq<Bytes>,      // packets ReadPacket returned from it
    closed: bool)

  datatype Side = Reader | Writer

  datatype Pc =
    | Idle
    | Check               // ensureConn, first look
    | Waiting             // for connectMu
    | Recheck             // ensureConn, second look, holding connectMu
    | Connecting          // Accept or dial, holding connectMu
    | Connected(c: nat)   // about to publish, holding connectMu
    | Busy(c: nat)        // transferring bytes
    | Failed(c: nat)      // about to resetConn

  datatype State = State(
    cur: Option<nat>, closed: bool, conns: seq<Conn>,
    rpc: Pc, buf: Bytes,
    wpc: Pc, packet: Bytes, rest: Bytes, attempt: nat,
    results: seq<(Bytes, Option<nat>)>)   // each WritePacket: nil on a connection, or an error
  {
    function At(side: Side): Pc
    {
      if side.Reader? then rpc else wpc
    }

    function Goto(side: Side, pc: Pc): State
    {
      if side.Reader? then this.(rpc := pc) else this.(wpc := pc)
    }
  }

  const INITIAL := State(None, false, [], Idle, [], Idle, [], [], 0, [])

  predicate Holds(pc: Pc)
  {
    pc.Recheck? || pc.Connecting? || pc.Connected?
  }

  function OtherSide(side: Side): Side
  {
    if side.Reader? then Writer else Reader
  }

  datatype Action =
    | StartRead
    | StartWrite(p: Bytes)
    | Look(side: Side, retry: bool)
    | LockConnect(side: Side)
    | Connect(side: Side, ok: bool, retry: bool)
    | Publish(side: Side, retry: bool)
    | WriteChunk(n: nat, err: bool)
    | ReadChunk(n: nat)
    | ReadError
    | Reset(side: Side, retry: bool)
    | Arrive(c: nat, b: Bytes)
    | Close

  /** What one call of Write or Read is asked for. */
  function WritePart(s: State): nat
  {
    if |s.rest| > |s.packet| then |s.rest| - |s.packet| else |s.rest|
  }

  function ReadPart(buf: Bytes): int
  {
    if |buf| < 4 then 4 - |buf| else 4 + Get(buf[..4]) - |buf|
  }

  predicate Enabled(s: State, a: Action)
  {
    match a
    case StartRead => s.rpc.Idle?
    case StartWrite(p) => s.wpc.Idle?
    case Look(side, retry) => s.At(side).Check? || s.At(side).Recheck?
    case LockConnect(side) => s.At(side).Waiting? && !Holds(s.At(OtherSide(side)))
    case Connect(side, ok, retry) => s.At(side).Connecting?
    case Publish(side, retry) => s.At(side).Connected? && s.At(side).c < |s.conns|
    case WriteChunk(n, err) =>
      && s.wpc.Busy? && s.wpc.c < |s.conns| && n <= WritePart(s)
      && (err ==> n < WritePart(s))   // a failing write leaves a byte unwritten
    case ReadChunk(n) =>
      && s.rpc.Busy? && s.rpc.c < |s.conns|
      && 0 < n <= ReadPart(s.buf) && s.conns[s.rpc.c].read + n <= |s.conns[s.rpc.c].inbox|
    case ReadError => s.rpc.Busy?
    case Reset(side, retry) => s.At(side).Failed? && s.At(side).c < |s.conns|
    case Arrive(c, b) => c < |s.conns|
    case Close => s.cur.Some? ==> s.cur.value < |s.conns|
  }

  /** ensureConn returned an error: WritePacket passes it on, ReadPacket may try again. */
  function NoConn(s: State, side: Side, retry: bool): State
  {
    if side.Reader? then s.(rpc := if retry then Check else Idle)
    else s.(wpc := Idle, results := s.results + [(s.packet, None)])
  }

  /** ensureConn returned connection `c`. */
  function Begin(s: State, side: Side, c: nat): State
  {
    if side.Reader? then s.(rpc := Busy(c), buf := [])
    else s.(wpc := Busy(c), rest := Frame(s.packet))
  }

  function CloseConn(s: State, c: nat): State
    requires c < |s.conns|
  {
    s.(conns := s.conns[c := s.conns[c].(closed := true)])
  }

  function DoWrite(s: State, n: nat, err: bool): State
    requires Enabled(s, WriteChunk(n, err))
  {
    var c := s.wpc.c;
    var x := s.conns[c];
    var y := x.(wire := x.wire + s.rest[..n]);
    var s1 := s.(rest := s.rest[n..]);
    if err || n == 0 then s1.(conns := s.conns[c := y], wpc := Failed(c))
    else if s1.rest != [] then s1.(conns := s.conns[c := y])
    else s1.(conns := s.conns[c := y.(frames := x.frames + [s.packet])], wpc := Idle, results := s.results
      + [(s.packet, Some(c))])
  }

  /** The connection and the reader after `n` more bytes have filled the buffer to `buf`. */
  function Filled(x: Conn, c: nat, n: nat, buf: Bytes): (Conn, Pc)
  {
    var y := x.(read := x.read + n);
    if |buf| == 4 && !(0 < Get(buf[..4]) <= MAX_FRAME) then (y, Failed(c))
    else if |buf| > 4 && |buf| == 4 + Get(buf[..4]) then (y.(got := x.got + [buf[4..]]), Idle)
    else (y, Busy(c))
  }

  /** The state once the reader's connection became `y`. */
  function WithRead(s: State, c: nat, y: Conn, pc: Pc, buf: Bytes): State
    requires c < |s.conns|
  {
    s.(buf := buf, conns := s.conns[c := y], rpc := pc)
  }

  function DoRead(s: State, n: nat): State
    requires Enabled(s, ReadChunk(n))
  {
    var c := s.rpc.c;
    var x := s.conns[c];
    var buf := s.buf + x.inbox[x.read..x.read + n];
    var f := Filled(x, c, n, buf);
    WithRead(s, c, f.0, f.1, buf)
  }

  function DoReset(s: State, side: Side, retry: bool): State
    requires Enabled(s, Reset(side, retry))
  {
    var c := s.At(side).c;
    var s1 := if s.cur == Some(c) then CloseConn(s, c).(cur := None) else s;
    if side.Reader? then s1.(rpc := if retry then Check else Idle)
    else if s.attempt + 1 < 2 then s1.(wpc := Check, attempt := s.attempt + 1)
    else s1.(wpc := Idle, results := s.results + [(s.packet, None)])
  }

  function Apply(s: State, a: Action): State
    requires Enabled(s, a)
  {
    match a
    case StartRead => s.(rpc := Check)
    case StartWrite(p) =>
      if Sendable(p) then s.(wpc := Check, packet := p, attempt := 0) else s.(results := s.results + [(p, None)])
    case Look(side, retry) =>
      if s.closed then NoConn(s, side, retry)
      else if s.cur.Some? then Begin(s, side, s.cur.value)
      else s.Goto(side, if s.At(side).Check? then Waiting else Connecting)
    case LockConnect(side) => s.Goto(side, Recheck)
    case Connect(side, ok, retry) =>
      if ok then s.Goto(side, Connected(|s.conns|)).(conns := s.conns + [Conn([], [], [], 0, [], false)])
      else NoConn(s, side, retry)
    case Publish(side, retry) =>
      var c := s.At(side).c;
      if s.closed then NoConn(CloseConn(s, c), side, retry)
      else Begin(s.(cur := Some(c)), side, c)
    case WriteChunk(n, err) => DoWrite(s, n, err)
    case ReadChunk(n) => DoRead(s, n)
    case ReadError => s.(rpc := Failed(s.rpc.c))
    case Reset(side, retry) => DoReset(s, side, retry)
    case Arrive(c, b) => s.(conns := s.conns[c := s.conns[c].(inbox := s.conns[c].inbox + b)])
    case Close =>
      var s1 := if s.cur.Some? then CloseConn(s, s.cur.value) else s;
      s1.(closed := true, cur := None)
  }

  function Exec(run: seq<Action>): Option<State>
  {
    if run == [] then Some(INITIAL) else
      var before := Exec(run[..|run| - 1]);
      if before.Some? && Enabled(before.value, run[|run| - 1]) then Some(Apply(before.value, run[|run| - 1])) else None
  }

  // ---------------------------------------------------------------------------
  // Ownership

  predicate Uses(pc: Pc, c: nat)
  {
    (pc.Connected? || pc.Busy? || pc.Failed?) && pc.c == c
  }

  ghost predicate SideInv(s: State, side: Side)
  {
    var pc := s.At(side);
    && (pc.Connecting? || pc.Connected? ==> s.cur.None?)
    && (pc.Connected? || pc.Busy? || pc.Failed? ==> pc.c < |s.conns|)
    && (pc.Connected? ==> !s.conns[pc.c].closed && !Uses(s.At(OtherSide(side)), pc.c))
  }

  /** No connection leaks: it is closed, current, or about to be published. */
  ghost predicate OwnInv(s: State)
  {
    && !(Holds(s.rpc) && Holds(s.wpc))
    && SideInv(s, Reader) && SideInv(s, Writer)
    && (s.closed ==> s.cur.None?)
    && (s.cur.Some? ==> s.cur.value < |s.conns| && !s.conns[s.cur.value].closed)
    && (forall c :: 0 <= c < |s.conns| ==>
          s.conns[c].closed || s.cur == Some(c) || s.rpc == Connected(c) || s.wpc == Connected(c))
  }

  /** Connections as they were, up to the bytes on them. */
  predicate SameConns(s: State, s': State)
  {
    && s'.cur == s.cur && s'.closed == s.closed && |s'.conns| == |s.conns|
    && forall c :: 0 <= c < |s.conns| ==> s'.conns[c].closed == s.conns[c].closed
  }

  lemma OwnFrame(s: State, s': State)
    requires OwnInv(s) && SameConns(s, s')
    requires s'.rpc == s.rpc || s'.rpc.Idle? || (s'.rpc.Check? && s.rpc.Idle?)
      || (s.rpc.Busy? && s'.rpc == Failed(s.rpc.c))
    requires s'.wpc == s.wpc || s'.wpc.Idle? || (s'.wpc.Check? && s.wpc.Idle?)
      || (s.wpc.Busy? && s'.wpc == Failed(s.wpc.c))
    requires s.rpc.Connected? ==> s'.rpc == s.rpc
    requires s.wpc.Connected? ==> s'.wpc == s.wpc
    ensures OwnInv(s')
  {
  }

  lemma OwnTransfer(s: State, a: Action)
    requires OwnInv(s) && Enabled(s, a)
    requires a.StartRead? || a.StartWrite? || a.WriteChunk? || a.ReadChunk? || a.ReadError? || a.Arrive?
    ensures OwnInv(Apply(s, a))
  {
    OwnFrame(s, Apply(s, a));
  }

  lemma OwnLook(s: State, side: Side, retry: bool)
    requires OwnInv(s) && Enabled(s, Look(side, retry))
    ensures OwnInv(Apply(s, Look(side, retry)))
  {
  }

  lemma OwnConnect(s: State, a: Action)
    requires OwnInv(s) && Enabled(s, a) && (a.LockConnect? || a.Connect?)
    ensures OwnInv(Apply(s, a))
  {
  }

  lemma OwnPublish(s: State, side: Side, retry: bool)
    requires OwnInv(s) && Enabled(s, Publish(side, retry))
    ensures OwnInv(Apply(s, Publish(side, retry)))
  {
  }

  lemma OwnReset(s: State, side: Side, retry: bool)
    requires OwnInv(s) && Enabled(s, Reset(side, retry))
    ensures OwnInv(DoReset(s, side, retry))
  {
  }

  lemma OwnClose(s: State)
    requires OwnInv(s)
    ensures OwnInv(Apply(s, Close))
  {
  }

  lemma OwnStep(s: State, a: Action)
    requires OwnInv(s) && Enabled(s, a)
    ensures OwnInv(Apply(s, a))
  {
    match a {
      case Look(side, retry) => OwnLook(s, side, retry);
      case LockConnect(_) => OwnConnect(s, a);
      case Connect(_, _, _) => OwnConnect(s, a);
      case Publish(side, retry) => OwnPublish(s, side, retry);
      case Reset(side, retry) => OwnReset(s, side, retry);
      case Close => OwnClose(s);
      case _ => OwnTransfer(s, a);
    }
  }

  /** A published connection is given up only by closing it, is never overwritten, and
      after Close no connection is ever published again. */
  lemma PublishedStep(s: State, a: Action)
    requires OwnInv(s) && Enabled(s, a)
    ensures var s' := Apply(s, a);
      && (s.cur.Some? ==> s'.cur == s.cur || (s'.cur.None? && s'.conns[s.cur.value].closed))
      && (s.closed ==> s'.closed && s'.cur.None?)
      && |s.conns| <= |s'.conns|
      && (forall c :: 0 <= c < |s.conns| && s.conns[c].closed ==> s'.conns[c].closed)
  {
    OwnStep(s, a);
    if a.Reset? { ResetPublished(s, a.side, a.retry); }
  }

  lemma ResetPublished(s: State, side: Side, retry: bool)
    requires OwnInv(s) && Enabled(s, Reset(side, retry))
    ensures var s' := DoReset(s, side, retry);
      && (s.cur.Some? ==> s'.cur == s.cur || (s'.cur.None? && s'.conns[s.cur.value].closed))
      && s'.closed == s.closed && |s.conns| == |s'.conns|
      && (forall c :: 0 <= c < |s.conns| && s.conns[c].closed ==> s'.conns[c].closed)
  {
  }

  // ---------------------------------------------------------------------------
  // Framing

  /** The packets whose WritePacket returned nil on connection `c`, in order. */
  function On(results: seq<(Bytes, Option<nat>)>, c: nat): seq<Bytes>
  {
    if results == [] then [] else
      var (p, r) := results[|results| - 1];
      On(results[..|results| - 1], c) + (if r == Some(c) then [p] else [])
  }

  lemma OnSnoc(results: seq<(Bytes, Option<nat>)>, p: Bytes, r: Option<nat>, c: nat)
    ensures On(results + [(p, r)], c) == On(results, c) + (if r == Some(c) then [p] else [])
  {
    assert (results + [(p, r)])[..|results|] == results;
  }

  /** The connection is open for the next frame, or will be. */
  predicate Open(s: State, c: nat)
  {
    s.cur == Some(c) || s.rpc == Connected(c) || s.wpc == Connected(c)
  }

  /** Behind the complete frames there is the part of the current one, or, on a
      connection given up, the part that was written when it failed. */
  ghost predicate WriteConn(x: Conn, pc: Pc, c: nat, open: bool, packet: Bytes, rest: Bytes,
      results: seq<(Bytes, Option<nat>)>)
  {
    && AllSendable(x.frames) && x.frames == On(results, c)
    && FrameAll(x.frames) <= x.wire
    && var tail := x.wire[|FrameAll(x.frames)|..];
    && (pc == Busy(c) ==> rest != [] && tail + rest == Frame(packet))
    && Partial(tail)
    && (open && pc != Busy(c) && pc != Failed(c) ==> tail == [])
  }

  ghost predicate WriteInv(s: State)
  {
    && (!s.wpc.Idle? ==> Sendable(s.packet))
    && (forall c :: 0 <= c < |s.conns| ==> WriteConn(s.conns[c], s.wpc, c, Open(s, c), s.packet, s.rest, s.results))
    && (forall c: nat :: c >= |s.conns| ==> On(s.results, c) == [])
  }

  predicate BufferInv(buf: Bytes)
  {
    |buf| < 4 || (0 < Get(buf[..4]) <= MAX_FRAME && |buf| < 4 + Get(buf[..4]))
  }

  ghost predicate ReadConn(x: Conn, pc: Pc, c: nat, open: bool, buf: Bytes)
  {
    && AllSendable(x.got) && x.read <= |x.inbox|
    && FrameAll(x.got) <= x.inbox[..x.read]
    && var left := x.inbox[..x.read][|FrameAll(x.got)|..];
    && (pc == Busy(c) ==> left == buf && BufferInv(buf))
    && (open && pc != Busy(c) && pc != Failed(c) ==> left == [])
  }

  ghost predicate ReadInv(s: State)
  {
    forall c :: 0 <= c < |s.conns| ==> ReadConn(s.conns[c], s.rpc, c, Open(s, c), s.buf)
  }

  ghost predicate Inv(s: State)
  {
    OwnInv(s) && WriteInv(s) && ReadInv(s)
  }

  /** The writer put `n` more bytes on the connection, not all of them. */
  lemma ChunkWritten(x: Conn, y: Conn, c: nat, open: bool, packet: Bytes, rest: Bytes, n: nat,
      results: seq<(Bytes, Option<nat>)>, failed: bool)
    requires WriteConn(x, Busy(c), c, open, packet, rest, results) && Sendable(packet) && n < |rest|
    requires y == x.(wire := x.wire + rest[..n])
    ensures WriteConn(y, if failed then Failed(c) else Busy(c), c, open, packet, rest[n..], results)
  {
    var k := |FrameAll(x.frames)|;
    var tail := x.wire[k..];
    assert y.wire[k..] == tail + rest[..n];
    assert rest == rest[..n] + rest[n..];
    assert tail + rest[..n] + rest[n..] == Frame(packet);
    assert PartOf(tail + rest[..n], packet);
  }

  lemma FrameCompletes(frames: seq<Bytes>, wire: Bytes, rest: Bytes, packet: Bytes)
    requires FrameAll(frames) <= wire && wire[|FrameAll(frames)|..] + rest == Frame(packet)
    ensures wire + rest == FrameAll(frames + [packet])
  {
    FrameSnoc(frames, packet);
    var k := |FrameAll(frames)|;
    assert wire == FrameAll(frames) + wire[k..];
    assert wire + rest == FrameAll(frames) + (wire[k..] + rest);
  }

  lemma FrameWritten(x: Conn, y: Conn, c: nat, open: bool, packet: Bytes, rest: Bytes,
      results: seq<(Bytes, Option<nat>)>)
    requires WriteConn(x, Busy(c), c, open, packet, rest, results) && Sendable(packet)
    requires y == x.(wire := x.wire + rest, frames := x.frames + [packet])
    ensures WriteConn(y, Idle, c, open, packet, [], results + [(packet, Some(c))])
  {
    FrameCompletes(x.frames, x.wire, rest, packet);
    OnSnoc(results, packet, Some(c), c);
    EmptyIsPartial();
    assert y.wire[|FrameAll(y.frames)|..] == [];
  }

  lemma ChunkKeeps(s: State, n: nat, err: bool)
    requires WriteInv(s) && Enabled(s, WriteChunk(n, err)) && n < |s.rest|
    ensures WriteInv(DoWrite(s, n, err))
  {
    var c, s' := s.wpc.c, DoWrite(s, n, err);
    assert WriteConn(s.conns[c], s.wpc, c, Open(s, c), s.packet, s.rest, s.results);
    ChunkWritten(s.conns[c], s'.conns[c], c, Open(s, c), s.packet, s.rest, n, s.results, err || n == 0);
    forall d | 0 <= d < |s.conns| && d != c
      ensures WriteConn(s'.conns[d], s'.wpc, d, Open(s', d), s'.packet, s'.rest, s'.results) {
      assert WriteConn(s.conns[d], s.wpc, d, Open(s, d), s.packet, s.rest, s.results);
    }
  }

  lemma FrameKeeps(s: State, n: nat, err: bool)
    requires WriteInv(s) && Enabled(s, WriteChunk(n, err)) && n == |s.rest|
    ensures WriteInv(DoWrite(s, n, err))
  {
    var c, s' := s.wpc.c, DoWrite(s, n, err);
    assert WriteConn(s.conns[c], s.wpc, c, Open(s, c), s.packet, s.rest, s.results);
    assert s.rest[..n] == s.rest && s.rest[n..] == [];
    FrameWritten(s.conns[c], s'.conns[c], c, Open(s, c), s.packet, s.rest, s.results);
    forall d: nat | d != c ensures On(s'.results, d) == On(s.results, d) {
      OnSnoc(s.results, s.packet, Some(c), d);
    }
    forall d | 0 <= d < |s.conns| && d != c
      ensures WriteConn(s'.conns[d], s'.wpc, d, Open(s', d), s'.packet, s'.rest, s'.results) {
      assert WriteConn(s.conns[d], s.wpc, d, Open(s, d), s.packet, s.rest, s.results);
    }
  }

  predicate Using(pc: Pc, c: nat)
  {
    pc == Busy(c) || pc == Failed(c)
  }

  /** The other steps leave what was written alone; a connection the writer takes up
      has no part of a frame on it. */
  lemma WriteFrame(s: State, s': State)
    requires WriteInv(s) && (!s'.wpc.Idle? ==> Sendable(s'.packet))
    requires |s.conns| <= |s'.conns|
    requires forall c :: 0 <= c < |s.conns| ==>
      s'.conns[c].wire == s.conns[c].wire && s'.conns[c].frames == s.conns[c].frames
    requires forall c :: |s.conns| <= c < |s'.conns| ==>
      s'.conns[c].wire == [] && s'.conns[c].frames == [] && s'.wpc != Busy(c)
    requires forall c: nat :: On(s'.results, c) == On(s.results, c)
    requires forall c :: 0 <= c < |s.conns| && s'.wpc == Busy(c) ==>
      || (s.wpc == Busy(c) && s'.packet == s.packet && s'.rest == s.rest)
      || (Open(s, c) && !Using(s.wpc, c) && s'.rest == Frame(s'.packet))
    requires forall c :: 0 <= c < |s.conns| && Open(s', c) && !Using(s'.wpc, c) ==> Open(s, c) && !Using(s.wpc, c)
    ensures WriteInv(s')
  {
    EmptyIsPartial();
    forall c | 0 <= c < |s'.conns|
      ensures WriteConn(s'.conns[c], s'.wpc, c, Open(s', c), s'.packet, s'.rest, s'.results) {
      assert FrameAll([]) == [];
      assert c < |s.conns| ==> WriteConn(s.conns[c], s.wpc, c, Open(s, c), s.packet, s.rest, s.results);
    }
  }

  lemma WriteLook(s: State, side: Side, retry: bool)
    requires OwnInv(s) && WriteInv(s) && Enabled(s, Look(side, retry))
    ensures WriteInv(Apply(s, Look(side, retry)))
  {
    var s' := Apply(s, Look(side, retry));
    forall c: nat ensures On(s'.results, c) == On(s.results, c) { OnSnoc(s.results, s.packet, None, c); }
    WriteFrame(s, s');
  }

  lemma WriteConnect(s: State, side: Side, ok: bool, retry: bool)
    requires OwnInv(s) && WriteInv(s) && Enabled(s, Connect(side, ok, retry))
    ensures WriteInv(Apply(s, Connect(side, ok, retry)))
  {
    var s' := Apply(s, Connect(side, ok, retry));
    forall c: nat ensures On(s'.results, c) == On(s.results, c) { OnSnoc(s.results, s.packet, None, c); }
    WriteFrame(s, s');
  }

  /** Steps of the reader and the environment. */
  lemma WriteSame(s: State, s': State)
    requires WriteInv(s) && |s'.conns| == |s.conns|
    requires forall c :: 0 <= c < |s.conns| ==>
      s'.conns[c].wire == s.conns[c].wire && s'.conns[c].frames == s.conns[c].frames
    requires s'.wpc == s.wpc && s'.packet == s.packet && s'.rest == s.rest && s'.results == s.results
    requires forall c :: 0 <= c < |s.conns| && Open(s', c) ==> Open(s, c)
    ensures WriteInv(s')
  {
    forall c | 0 <= c < |s'.conns|
      ensures WriteConn(s'.conns[c], s'.wpc, c, Open(s', c), s'.packet, s'.rest, s'.results) {
      assert WriteConn(s.conns[c], s.wpc, c, Open(s, c), s.packet, s.rest, s.results);
    }
  }

  lemma WriteStarts(s: State, a: Action)
    requires OwnInv(s) && WriteInv(s) && Enabled(s, a) && (a.StartWrite? || a == LockConnect(Writer))
    ensures WriteInv(Apply(s, a))
  {
    var s' := Apply(s, a);
    forall c: nat ensures On(s'.results, c) == On(s.results, c) {
      if a.StartWrite? { OnSnoc(s.results, a.p, None, c); }
    }
    WriteFrame(s, s');
  }

  lemma WritePublish(s: State, side: Side, retry: bool)
    requires OwnInv(s) && WriteInv(s) && Enabled(s, Publish(side, retry))
    ensures WriteInv(Apply(s, Publish(side, retry)))
  {
    var s' := Apply(s, Publish(side, retry));
    forall c: nat ensures On(s'.results, c) == On(s.results, c) { OnSnoc(s.results, s.packet, None, c); }
    WriteFrame(s, s');
  }

  lemma WriteReset(s: State, side: Side, retry: bool)
    requires OwnInv(s) && WriteInv(s) && Enabled(s, Reset(side, retry))
    ensures WriteInv(DoReset(s, side, retry))
  {
    var s' := DoReset(s, side, retry);
    ResetKeepsWires(s, side, retry);
    forall c: nat ensures On(s'.results, c) == On(s.results, c) { OnSnoc(s.results, s.packet, None, c); }
    WriteFrame(s, s');
  }

  lemma ResetKeepsWires(s: State, side: Side, retry: bool)
    requires OwnInv(s) && Enabled(s, Reset(side, retry))
    ensures var s' := DoReset(s, side, retry);
      && |s'.conns| == |s.conns|
      && (forall c :: 0 <= c < |s.conns| ==>
        s'.conns[c].wire == s.conns[c].wire && s'.conns[c].frames == s.conns[c].frames)
      && (forall c :: 0 <= c < |s.conns| && Open(s', c) && !Using(s'.wpc, c) ==> Open(s, c) && !Using(s.wpc, c))
  {
  }

  lemma WriteQuiet(s: State, a: Action)
    requires OwnInv(s) && WriteInv(s) && Enabled(s, a)
    requires a.StartRead? || a.ReadChunk? || a.ReadError? || a.Arrive? || a.Close? || a == LockConnect(Reader)
    ensures WriteInv(Apply(s, a))
  {
    WriteSame(s, Apply(s, a));
  }

  lemma WriteStep(s: State, a: Action)
    requires OwnInv(s) && WriteInv(s) && Enabled(s, a)
    ensures WriteInv(Apply(s, a))
  {
    match a {
      case Look(side, retry) => WriteLook(s, side, retry);
      case LockConnect(side) => if side.Writer? { WriteStarts(s, a); } else { WriteQuiet(s, a); }
      case StartWrite(_) => WriteStarts(s, a);
      case Connect(side, ok, retry) => WriteConnect(s, side, ok, retry);
      case Publish(side, retry) => WritePublish(s, side, retry);
      case Reset(side, retry) => WriteReset(s, side, retry);
      case WriteChunk(n, err) =>
        assert WriteConn(s.conns[s.wpc.c], s.wpc, s.wpc.c, Open(s, s.wpc.c), s.packet, s.rest, s.results);
        if n < |s.rest| { ChunkKeeps(s, n, err); } else { FrameKeeps(s, n, err); }
      case _ => WriteQuiet(s, a);
    }
  }

  // ---------------------------------------------------------------------------
  // The same for the reader

  lemma BytesRead(x: Conn, n: nat)
    requires x.read + n <= |x.inbox| && FrameAll(x.got) <= x.inbox[..x.read]
    ensures FrameAll(x.got) <= x.inbox[..x.read + n]
    ensures x.inbox[..x.read + n][|FrameAll(x.got)|..]
      == x.inbox[..x.read][|FrameAll(x.got)|..] + x.inbox[x.read..x.read + n]
  {
    assert x.inbox[..x.read + n] == x.inbox[..x.read] + x.inbox[x.read..x.read + n];
  }

  /** A full buffer is a frame. */
  lemma BufferIsFrame(buf: Bytes)
    requires |buf| > 4 && |buf| == 4 + Get(buf[..4])
    ensures buf == Frame(buf[4..])
  {
    PutGet(buf[..4]);
    assert buf == buf[..4] + buf[4..];
  }

  lemma PacketRead(x: Conn, n: nat, buf: Bytes, c: nat, open: bool)
    requires AllSendable(x.got) && x.read + n <= |x.inbox| && FrameAll(x.got) <= x.inbox[..x.read]
    requires buf == x.inbox[..x.read][|FrameAll(x.got)|..] + x.inbox[x.read..x.read + n]
    requires |buf| > 4 && |buf| == 4 + Get(buf[..4]) && Get(buf[..4]) <= MAX_FRAME
    ensures ReadConn(x.(read := x.read + n, got := x.got + [buf[4..]]), Idle, c, open, buf)
  {
    BytesRead(x, n);
    BufferIsFrame(buf);
    FrameSnoc(x.got, buf[4..]);
    var k := |FrameAll(x.got)|;
    assert x.inbox[..x.read + n] == x.inbox[..x.read + n][..k] + x.inbox[..x.read + n][k..];
    assert x.inbox[..x.read + n] == FrameAll(x.got) + buf;
  }

  /** More bytes, not yet a packet. */
  lemma PartRead(x: Conn, n: nat, buf: Bytes, c: nat, open: bool, failed: bool)
    requires AllSendable(x.got) && x.read + n <= |x.inbox| && FrameAll(x.got) <= x.inbox[..x.read]
    requires buf == x.inbox[..x.read][|FrameAll(x.got)|..] + x.inbox[x.read..x.read + n]
    requires !failed ==> BufferInv(buf)
    ensures ReadConn(x.(read := x.read + n), if failed then Failed(c) else Busy(c), c, open, buf)
  {
    BytesRead(x, n);
  }

  lemma BufferGrows(was: Bytes, buf: Bytes, n: nat)
    requires BufferInv(was) && was <= buf && |buf| == |was| + n && 0 < n <= ReadPart(was)
    ensures |buf| > 4 ==> 0 < Get(buf[..4]) <= MAX_FRAME && |buf| <= 4 + Get(buf[..4])
  {
    if |was| >= 4 { assert buf[..4] == was[..4]; }
  }

  /** The buffer of a busy reader is what it has read of the next frame. */
  lemma ChunkFits(x: Conn, n: nat, was: Bytes, c: nat, open: bool)
    requires ReadConn(x, Busy(c), c, open, was) && x.read + n <= |x.inbox| && 0 < n <= ReadPart(was)
    ensures var buf := was + x.inbox[x.read..x.read + n];
      && AllSendable(x.got) && FrameAll(x.got) <= x.inbox[..x.read]
      && buf == x.inbox[..x.read][|FrameAll(x.got)|..] + x.inbox[x.read..x.read + n]
      && (|buf| > 4 ==> 0 < Get(buf[..4]) <= MAX_FRAME && |buf| <= 4 + Get(buf[..4]))
  {
    BufferGrows(was, was + x.inbox[x.read..x.read + n], n);
  }

  lemma FilledKeeps(x: Conn, n: nat, was: Bytes, c: nat, open: bool, open': bool)
    requires ReadConn(x, Busy(c), c, open, was) && x.read + n <= |x.inbox| && 0 < n <= ReadPart(was)
    ensures var buf := was + x.inbox[x.read..x.read + n];
      var f := Filled(x, c, n, buf);
      ReadConn(f.0, f.1, c, open', buf)
  {
    ChunkFits(x, n, was, c, open);
    var buf := was + x.inbox[x.read..x.read + n];
    if |buf| > 4 && |buf| == 4 + Get(buf[..4]) {
      PacketRead(x, n, buf, c, open');
    } else {
      PartRead(x, n, buf, c, open', Filled(x, c, n, buf).1.Failed?);
    }
  }

  lemma OthersUnread(s: State, c: nat, y: Conn, pc: Pc, buf: Bytes, open: bool)
    requires ReadInv(s) && c < |s.conns| && s.rpc == Busy(c) && (pc == Busy(c) || pc == Failed(c) || pc == Idle)
    requires ReadConn(y, pc, c, open, buf) && open == Open(WithRead(s, c, y, pc, buf), c)
    ensures ReadInv(WithRead(s, c, y, pc, buf))
  {
    var s' := WithRead(s, c, y, pc, buf);
    forall d | 0 <= d < |s'.conns| ensures ReadConn(s'.conns[d], s'.rpc, d, Open(s', d), s'.buf) {
      if d != c { assert ReadConn(s.conns[d], s.rpc, d, Open(s, d), s.buf); }
    }
  }

  lemma ReaderConn(s: State, c: nat)
    requires ReadInv(s) && c < |s.conns| && s.rpc == Busy(c)
    ensures ReadConn(s.conns[c], Busy(c), c, Open(s, c), s.buf)
  {
  }

  lemma ReadStepKeeps(s: State, n: nat) returns (s': State)
    requires ReadInv(s) && Enabled(s, ReadChunk(n))
    ensures s' == DoRead(s, n) && ReadInv(s')
  {
    var c := s.rpc.c;
    var x, was, open := s.conns[c], s.buf, Open(s, c);
    var buf := was + x.inbox[x.read..x.read + n];
    var y, pc := Filled(x, c, n, buf).0, Filled(x, c, n, buf).1;
    s' := WithRead(s, c, y, pc, buf);
    var open' := Open(s', c);
    ReaderConn(s, c);
    FilledKeeps(x, n, was, c, open, open');
    OthersUnread(s, c, y, pc, buf, open');
  }

  predicate SameInput(x: Conn, y: Conn)
  {
    y.inbox == x.inbox && y.read == x.read && y.got == x.got
  }

  /** A connection the reader takes up was read exactly up to a frame boundary. */
  lemma ReadFrame(s: State, s': State)
    requires ReadInv(s) && |s.conns| <= |s'.conns|
    requires forall c :: 0 <= c < |s.conns| ==> SameInput(s.conns[c], s'.conns[c])
    requires forall c :: |s.conns| <= c < |s'.conns| ==>
      SameInput(Conn([], [], [], 0, [], false), s'.conns[c]) && s'.rpc != Busy(c)
    requires forall c :: 0 <= c < |s.conns| && s'.rpc == Busy(c) ==>
      || (s.rpc == Busy(c) && s'.buf == s.buf)
      || (Open(s, c) && !Using(s.rpc, c) && s'.buf == [])
    requires forall c :: 0 <= c < |s.conns| && Open(s', c) && !Using(s'.rpc, c) ==> Open(s, c) && !Using(s.rpc, c)
    ensures ReadInv(s')
  {
    forall c | 0 <= c < |s'.conns| ensures ReadConn(s'.conns[c], s'.rpc, c, Open(s', c), s'.buf) {
      assert FrameAll([]) == [];
      assert c < |s.conns| ==> ReadConn(s.conns[c], s.rpc, c, Open(s, c), s.buf);
    }
  }

  /** Steps of the writer and Close. */
  lemma ReadSame(s: State, s': State)
    requires ReadInv(s) && |s'.conns| == |s.conns| && s'.rpc == s.rpc && s'.buf == s.buf
    requires forall c :: 0 <= c < |s.conns| ==> SameInput(s.conns[c], s'.conns[c]) && (Open(s', c) ==> Open(s, c))
    ensures ReadInv(s')
  {
    forall c | 0 <= c < |s'.conns| ensures ReadConn(s'.conns[c], s'.rpc, c, Open(s', c), s'.buf) {
      assert ReadConn(s.conns[c], s.rpc, c, Open(s, c), s.buf);
    }
  }

  lemma ReadArrive(s: State, c: nat, b: Bytes)
    requires ReadInv(s) && Enabled(s, Arrive(c, b))
    ensures ReadInv(Apply(s, Arrive(c, b)))
  {
    var s' := Apply(s, Arrive(c, b));
    assert ReadConn(s.conns[c], s.rpc, c, Open(s, c), s.buf);
    assert s'.conns[c].inbox[..s.conns[c].read] == s.conns[c].inbox[..s.conns[c].read];
    forall d | 0 <= d < |s.conns| && d != c ensures ReadConn(s'.conns[d], s'.rpc, d, Open(s', d), s'.buf) {
      assert ReadConn(s.conns[d], s.rpc, d, Open(s, d), s.buf);
    }
  }

  lemma ReadLook(s: State, side: Side, retry: bool)
    requires OwnInv(s) && ReadInv(s) && Enabled(s, Look(side, retry))
    ensures ReadInv(Apply(s, Look(side, retry)))
  {
    ReadFrame(s, Apply(s, Look(side, retry)));
  }

  lemma ReadConnect(s: State, side: Side, ok: bool, retry: bool)
    requires OwnInv(s) && ReadInv(s) && Enabled(s, Connect(side, ok, retry))
    ensures ReadInv(Apply(s, Connect(side, ok, retry)))
  {
    ReadFrame(s, Apply(s, Connect(side, ok, retry)));
  }

  lemma ReadPublish(s: State, side: Side, retry: bool)
    requires OwnInv(s) && ReadInv(s) && Enabled(s, Publish(side, retry))
    ensures ReadInv(Apply(s, Publish(side, retry)))
  {
    ReadFrame(s, Apply(s, Publish(side, retry)));
  }

  lemma ResetKeepsInput(s: State, side: Side, retry: bool)
    requires OwnInv(s) && Enabled(s, Reset(side, retry))
    ensures var s' := DoReset(s, side, retry);
      && |s'.conns| == |s.conns| && s'.buf == s.buf
      && (forall c :: 0 <= c < |s.conns| ==> SameInput(s.conns[c], s'.conns[c]))
      && (forall c :: s'.rpc == Busy(c) ==> s.rpc == Busy(c))
      && (forall c :: 0 <= c < |s.conns| && Open(s', c) && !Using(s'.rpc, c) ==> Open(s, c) && !Using(s.rpc, c))
  {
  }

  lemma ReadReset(s: State, side: Side, retry: bool) returns (s': State)
    requires OwnInv(s) && ReadInv(s) && Enabled(s, Reset(side, retry))
    ensures s' == DoReset(s, side, retry) && ReadInv(s')
  {
    s' := DoReset(s, side, retry);
    ResetKeepsInput(s, side, retry);
    ReadFrame(s, s');
  }

  lemma ReadStarts(s: State, a: Action)
    requires OwnInv(s) && ReadInv(s) && Enabled(s, a) && (a.StartRead? || a.ReadError? || a == LockConnect(Reader))
    ensures ReadInv(Apply(s, a))
  {
    ReadFrame(s, Apply(s, a));
  }

  lemma ReadQuiet(s: State, a: Action)
    requires OwnInv(s) && ReadInv(s) && Enabled(s, a)
    requires a.StartWrite? || a.WriteChunk? || a.Close? || a == LockConnect(Writer)
    ensures ReadInv(Apply(s, a))
  {
    ReadSame(s, Apply(s, a));
  }

  lemma ReadStep(s: State, a: Action)
    requires OwnInv(s) && ReadInv(s) && Enabled(s, a)
    ensures ReadInv(Apply(s, a))
  {
    match a {
      case Look(side, retry) => ReadLook(s, side, retry);
      case LockConnect(side) => if side.Reader? { ReadStarts(s, a); } else { ReadQuiet(s, a); }
      case Connect(side, ok, retry) => ReadConnect(s, side, ok, retry);
      case Publish(side, retry) => ReadPublish(s, side, retry);
      case Reset(side, retry) => var s' := ReadReset(s, side, retry);
      case ReadChunk(n) => var s' := ReadStepKeeps(s, n);
      case StartRead => ReadStarts(s, a);
      case ReadError => ReadStarts(s, a);
      case Arrive(c, b) => ReadArrive(s, c, b);
      case _ => ReadQuiet(s, a);
    }
  }

  // ---------------------------------------------------------------------------
  // Over every run

  lemma StepKeeps(s: State, a: Action)
    requires Inv(s) && Enabled(s, a)
    ensures Inv(Apply(s, a))
  {
    OwnStep(s, a);
    WriteStep(s, a);
    ReadStep(s, a);
  }

  lemma {:induction false} RunKeeps(run: seq<Action>)
    ensures Exec(run).Some? ==> Inv(Exec(run).value)
  {
    if run != [] {
      var front := run[..|run| - 1];
      RunKeeps(front);
      if Exec(front).Some? && Enabled(Exec(front).value, run[|run| - 1]) {
        StepKeeps(Exec(front).value, run[|run| - 1]);
      }
    }
  }

  /** Ownership in every reachable state: a connection is current, closed, or still in the
      hands of the one goroutine that made it and holds connectMu; while one is being made
      none is current; after Close none ever is. */
  lemma ConnectionsOwned(run: seq<Action>)
    requires Exec(run).Some?
    ensures var s := Exec(run).value;
      && (forall c :: 0 <= c < |s.conns| ==>
        s.conns[c].closed || s.cur == Some(c) || s.rpc == Connected(c) || s.wpc == Connected(c))
      && (s.cur.Some? ==> s.cur.value < |s.conns| && !s.conns[s.cur.value].closed)
      && (s.rpc.Connected? || s.wpc.Connected? ==> s.cur.None? && !(s.rpc.Connected? && s.wpc.Connected?))
      && (s.closed ==> s.cur.None?)
  {
    RunKeeps(run);
  }

  /** One more step from a reachable state never overwrites a live connection. */
  lemma NeverOverwritten(run: seq<Action>, a: Action)
    requires Exec(run).Some? && Enabled(Exec(run).value, a)
    ensures var s, s' := Exec(run).value, Apply(Exec(run).value, a);
      && (s.cur.Some? ==> s'.cur == s.cur || (s'.cur.None? && s.cur.value < |s'.conns| && s'.conns[s.cur.value].closed))
      && (s.closed ==> s'.closed && s'.cur.None?)
  {
    RunKeeps(run);
    PublishedStep(Exec(run).value, a);
  }

  /** The complete frames on a connection's wire are exactly the packets whose WritePacket
      returned nil on it, in order; a call that failed left at most the beginning of a
      frame, behind everything else. */
  lemma WrittenFrames(run: seq<Action>, c: nat)
    requires Exec(run).Some? && c < |Exec(run).value.conns|
    ensures Written(On(Exec(run).value.results, c), Exec(run).value.conns[c].wire)
  {
    RunKeeps(run);
    var s := Exec(run).value;
    assert WriteConn(s.conns[c], s.wpc, c, Open(s, c), s.packet, s.rest, s.results);
    var k := |FrameAll(s.conns[c].frames)|;
    assert s.conns[c].wire == FrameAll(s.conns[c].frames) + s.conns[c].wire[k..];
  }

  // ---------------------------------------------------------------------------
  // One call

  /** The calls that returned went from `rs` to `rs'` by this one, with this result. */
  predicate Returned(rs: seq<(Bytes, Option<nat>)>, rs': seq<(Bytes, Option<nat>)>, p: Bytes)
  {
    |rs'| == |rs| + 1 && rs' == rs + [rs'[|rs|]] && rs'[|rs|].0 == p
  }

  /** While a call is under way no result appears; when it ends its own does. */
  lemma CallStep(s: State, a: Action)
    requires Enabled(s, a) && !s.wpc.Idle?
    ensures var s' := Apply(s, a);
      if s'.wpc.Idle? then Returned(s.results, s'.results, s.packet)
      else s'.results == s.results && s'.packet == s.packet
  {
  }

  /** A WritePacket call of `p` follows the run `before`; reader, reset and Close may come in
      between at will. */
  ghost predicate Calls(before: seq<Action>, call: seq<Action>, p: Bytes)
  {
    && call != [] && call[0] == StartWrite(p) && Exec(before + call).Some?
    && Exec(before).Some? && Exec(before).value.wpc.Idle?
    && (forall i :: 0 < i < |call| ==> Exec(before + call[..i]).Some? && !Exec(before + call[..i]).value.wpc.Idle?)
  }

  lemma {:induction false} CallProgress(before: seq<Action>, call: seq<Action>, p: Bytes)
    requires Calls(before, call, p)
    ensures var s, s' := Exec(before).value, Exec(before + call).value;
      if s'.wpc.Idle? then Returned(s.results, s'.results, p) else s'.results == s.results && s'.packet == p
  {
    var front, a := call[..|call| - 1], call[|call| - 1];
    assert (before + call)[..|before + call| - 1] == before + front;
    if front == [] {
      assert before + front == before;
    } else {
      forall i | 0 < i < |front| ensures Exec(before + front[..i]).Some? && !Exec(before + front[..i]).value.wpc.Idle? {
        assert front[..i] == call[..i];
      }
      assert call[..|front|] == front;
      CallProgress(before, front, p);
      CallStep(Exec(before + front).value, a);
    }
  }

  /** No step takes bytes back. */
  lemma WiresGrow(s: State, a: Action)
    requires Enabled(s, a)
    ensures var s' := Apply(s, a);
      |s.conns| <= |s'.conns| && forall c :: 0 <= c < |s.conns| ==> s.conns[c].wire <= s'.conns[c].wire
  {
  }

  lemma {:induction false} WiresGrowAlong(before: seq<Action>, call: seq<Action>)
    requires Exec(before).Some? && Exec(before + call).Some?
    ensures var s, s' := Exec(before).value, Exec(before + call).value;
      |s.conns| <= |s'.conns| && forall c :: 0 <= c < |s.conns| ==> s.conns[c].wire <= s'.conns[c].wire
  {
    if call == [] {
      assert before + call == before;
    } else {
      var front := call[..|call| - 1];
      assert (before + call)[..|before + call| - 1] == before + front;
      WiresGrowAlong(before, front);
      WiresGrow(Exec(before + front).value, call[|call| - 1]);
    }
  }

  /** The bytes on connection `c`; there are none before it is made. */
  function WireOf(s: State, c: nat): Bytes
  {
    if c < |s.conns| then s.conns[c].wire else []
  }

  /** From `wire` to `wire'` bytes were added that complete the frames `more` and no other. */
  ghost predicate Completed(wire: Bytes, wire': Bytes, more: seq<Bytes>)
  {
    wire <= wire' && exists fs :: Written(fs, wire) && Written(fs + more, wire')
  }

  /** On the wire, one WritePacket call that returned has completed its frame on exactly one
      connection if it returned nil, and on none otherwise, whatever it dialled and whatever
      came in between. */
  lemma OneCallOneFrame(before: seq<Action>, call: seq<Action>, p: Bytes)
    requires Calls(before, call, p) && Exec(before + call).value.wpc.Idle?
    ensures var s, s' := Exec(before).value, Exec(before + call).value;
      && Returned(s.results, s'.results, p)
      && var r := s'.results[|s.results|].1;
      forall c: nat :: c < |s'.conns| ==> Completed(WireOf(s, c), WireOf(s', c), if r == Some(c) then [p] else [])
  {
    CallProgress(before, call, p);
    WiresGrowAlong(before, call);
    var s, s' := Exec(before).value, Exec(before + call).value;
    var r := s'.results[|s.results|].1;
    forall c: nat | c < |s'.conns| ensures Completed(WireOf(s, c), WireOf(s', c), if r == Some(c) then [p] else []) {
      FramesOnWire(before, c);
      FramesOnWire(before + call, c);
      OnSnoc(s.results, p, r, c);
    }
  }

  lemma FramesOnWire(run: seq<Action>, c: nat)
    requires Exec(run).Some?
    ensures Written(On(Exec(run).value.results, c), WireOf(Exec(run).value, c))
  {
    if c < |Exec(run).value.conns| {
      WrittenFrames(run, c);
    } else {
      RunKeeps(run);
      EmptyIsPartial();
      assert [] == FrameAll([]) + [];
    }
  }

  // ---------------------------------------------------------------------------

  // Calls that nothing disturbs

  lemma ExecSnoc(run: seq<Action>, a: Action)
    requires Exec(run).Some? && Enabled(Exec(run).value, a)
    ensures Exec(run + [a]) == Some(Apply(Exec(run).value, a))
  {
    assert (run + [a])[..|run|] == run;
  }

  /** A sendable packet on a current connection that takes its bytes is written: the call can
      return nil on it. */
  lemma WriteCompletes(run: seq<Action>, c: nat, p: Bytes) returns (call: seq<Action>)
    requires Exec(run).Some? && Exec(run).value.wpc.Idle? && Exec(run).value.cur == Some(c) && Sendable(p)
    ensures Exec(call).Some? && Exec(call).value.wpc.Idle?
    ensures Exec(call).value.results == Exec(run).value.results + [(p, Some(c))]
  {
    RunKeeps(run);
    ExecSnoc(run, StartWrite(p));
    ExecSnoc(run + [StartWrite(p)], Look(Writer, false));
    call := run + [StartWrite(p)] + [Look(Writer, false)];
    var s := Exec(call).value;
    assert s.rest == Frame(p) && s.wpc == Busy(c);
    ExecSnoc(call, WriteChunk(4, false));
    call := call + [WriteChunk(4, false)];
    var t := Exec(call).value;
    assert t.rest == p by { assert Frame(p)[4..] == p; }
    ExecSnoc(call, WriteChunk(|p|, false));
    call := call + [WriteChunk(|p|, false)];
  }

  /** The next bytes that have arrived are the frame of `p`. */
  predicate NextIs(x: Conn, p: Bytes)
  {
    x.read + |Frame(p)| <= |x.inbox| && x.inbox[x.read..x.read + |Frame(p)|] == Frame(p)
  }

  /** The reader of connection `c` has the whole frame of `p` before it. */
  ghost predicate FrameAhead(s: State, c: nat, p: Bytes)
  {
    && c < |s.conns| && s.rpc == Busy(c) && s.buf == [] && Sendable(p)
    && NextIs(s.conns[c], p)
  }

  lemma Slices(s: Bytes, i: nat, a: Bytes, b: Bytes)
    requires i + |a| + |b| <= |s| && s[i..i + |a| + |b|] == a + b
    ensures s[i..i + |a|] == a && s[i + |a|..i + |a| + |b|] == b
  {
    var t := s[i..i + |a| + |b|];
    assert s[i..i + |a|] == t[..|a|] && t[..|a|] == a;
    assert s[i + |a|..i + |a| + |b|] == t[|a|..] && t[|a|..] == b;
  }

  lemma FrameParts(x: Conn, p: Bytes, hdr: Bytes)
    requires NextIs(x, p) && |hdr| == 4 && Frame(p) == hdr + p
    ensures x.read + 4 + |p| <= |x.inbox|
    ensures x.inbox[x.read..x.read + 4] == hdr && x.inbox[x.read + 4..x.read + 4 + |p|] == p
  {
    Slices(x.inbox, x.read, hdr, p);
  }

  lemma HeaderFills(x: Conn, c: nat, p: Bytes)
    requires Sendable(p)
    ensures Filled(x, c, 4, Put(|p|, 4)) == (x.(read := x.read + 4), Busy(c))
  {
    LengthFits(|p|);
    assert Put(|p|, 4)[..4] == Put(|p|, 4);
  }

  lemma HeaderRead(s: State, c: nat, p: Bytes)
    requires FrameAhead(s, c, p)
    ensures Enabled(s, ReadChunk(4))
    ensures DoRead(s, 4) == WithRead(s, c, s.conns[c].(read := s.conns[c].read + 4), Busy(c), Put(|p|, 4))
  {
    var x := s.conns[c];
    FrameParts(x, p, Put(|p|, 4));
    HeaderFills(x, c, p);
    assert s.buf + x.inbox[x.read..x.read + 4] == Put(|p|, 4);
  }

  lemma PayloadRead(s: State, c: nat, p: Bytes)
    requires FrameAhead(s, c, p)
    ensures var t := WithRead(s, c, s.conns[c].(read := s.conns[c].read + 4), Busy(c), Put(|p|, 4));
      && Enabled(t, ReadChunk(|p|)) && DoRead(t, |p|).rpc.Idle? && c < |DoRead(t, |p|).conns|
      && DoRead(t, |p|).conns[c].got == s.conns[c].got + [p]
  {
    var x, hdr := s.conns[c], Put(|p|, 4);
    LengthFits(|p|);
    assert hdr[..4] == hdr;
    FrameParts(x, p, Put(|p|, 4));
    assert (hdr + p)[..4] == hdr && (hdr + p)[4..] == p;
  }

  /** A frame that has arrived on the current connection is read: the call can return it. */
  lemma ReadCompletes(run: seq<Action>, c: nat, p: Bytes) returns (call: seq<Action>)
    requires Exec(run).Some? && Exec(run).value.rpc.Idle? && Exec(run).value.cur == Some(c) && Sendable(p)
    requires c < |Exec(run).value.conns|
    requires NextIs(Exec(run).value.conns[c], p)
    ensures Exec(call).Some? && Exec(call).value.rpc.Idle? && c < |Exec(call).value.conns|
    ensures Exec(call).value.conns[c].got == Exec(run).value.conns[c].got + [p]
  {
    RunKeeps(run);
    ExecSnoc(run, StartRead);
    ExecSnoc(run + [StartRead], Look(Reader, false));
    call := run + [StartRead] + [Look(Reader, false)];
    var s := Exec(call).value;
    HeaderRead(s, c, p);
    PayloadRead(s, c, p);
    ExecSnoc(call, ReadChunk(4));
    ExecSnoc(call + [ReadChunk(4)], ReadChunk(|p|));
    call := call + [ReadChunk(4)] + [ReadChunk(|p|)];
  }

  // ---------------------------------------------------------------------------

  /** End to end across reconnects: whatever chunks and failures both hosts see, the packets
      ReadPacket returned on a connection are a prefix of the packets WritePacket completed
      on its other end. */
  lemma FramingAcrossReconnects(writer: seq<Action>, c: nat, reader: seq<Action>, d: nat)
    requires Exec(writer).Some? && c < |Exec(writer).value.conns|
    requires Exec(reader).Some? && d < |Exec(reader).value.conns|
    requires Exec(reader).value.conns[d].inbox <= Exec(writer).value.conns[c].wire   // two ends of one connection
    ensures Exec(reader).value.conns[d].got <= On(Exec(writer).value.results, c)
  {
    RunKeeps(reader);
    WrittenFrames(writer, c);
    var s, r := Exec(writer).value, Exec(reader).value;
    var x := r.conns[d];
    assert ReadConn(x, r.rpc, d, Open(r, d), r.buf);
    var tail :| Partial(tail) && s.conns[c].wire == FrameAll(On(s.results, c)) + tail;
    assert x.inbox[..x.read] <= x.inbox;
    assert FrameAll(x.got) + [] <= FrameAll(On(s.results, c)) + tail;
    DeframePrefix(x.got, [], On(s.results, c), tail);
  }
}
