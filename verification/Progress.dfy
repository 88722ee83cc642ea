/** The positive half of the session protocol: what is sent opens, authentic data reaches the
    TUN, an answered hello completes the handshake, an acknowledged probe counts. */
module Progress {
  import opened Words
  import opened Messages
  import opened Replay
  import opened Endpoint
  import opened Protocol
  import opened ProtocolInvariant
  import opened ProtocolTheorems
  import opened Handlers

  // ---------------------------------------------------------------------------
  // Receiving

  /** The datagram is for the current session, from its peer, sealed for it over this header
      and plaintext, and its counter is new. */
  predicate Due(st: State, peer: Peer, kind: Kind, counter: uint64, box: Box, plain: Bytes)
  {
    && st.current.Some? && st.current.value < |st.sessions|
    && var x := st.sessions[st.current.value];
    x.peer == peer && box == Sealed(x.rx, counter, kind, counter, plain) && Admits(x.accepted, counter)
  }

  /** What a handled datagram leaves behind, told from the outside. */
  ghost predicate Receipt(st: State, st': State, kind: Kind, counter: uint64, plain: Bytes, now: int)
    requires st.current.Some? && st.current.value < |st.sessions|
  {
    var sid := st.current.value;
    var x := st.sessions[sid];
    && st'.tun == st.tun + (if kind == Data && plain != [] then [Delivery(sid, counter, plain)] else [])
    && |st'.sessions| == |st.sessions|
    && st'.sessions[sid].accepted == x.accepted + {counter as nat} && st'.sessions[sid].lastSeen == now
    && st'.sessions[sid].rxBytes == Add(x.rxBytes, Len(plain))
    && (forall i :: 0 <= i < |st.sessions| && i != sid ==> st'.sessions[i] == st.sessions[i])
  }

  /** handleEncrypted, exactly: a datagram that is due is taken, any other changes neither the
      TUN nor a session nor the probe channel. */
  lemma TakenIffDue(st: State, peer: Peer, kind: Kind, counter: uint64, box: Box, now: int)
    ensures var st' := HandleEncrypted(st, peer, kind, counter, box, now);
      && (forall plain :: Due(st, peer, kind, counter, box, plain) ==> Receipt(st, st', kind, counter, plain, now))
      && ((forall plain :: !Due(st, peer, kind, counter, box, plain)) ==>
            st'.tun == st.tun && st'.sessions == st.sessions && st'.probeAcks == st.probeAcks)
  {
    if box.Sealed? && !Due(st, peer, kind, counter, box, box.plain) {
      assert forall plain :: !Due(st, peer, kind, counter, box, plain);
    }
  }

  /** The TUN gets a packet if and only if a data packet with a payload is due, and then it
      gets exactly that payload. */
  lemma DeliversIff(st: State, peer: Peer, kind: Kind, counter: uint64, box: Box, now: int)
    ensures var st' := HandleEncrypted(st, peer, kind, counter, box, now);
      && (st'.tun != st.tun <==>
            kind.Data? && exists plain :: plain != [] && Due(st, peer, kind, counter, box, plain))
      && (forall plain :: kind.Data? && plain != [] && Due(st, peer, kind, counter, box, plain) ==>
            st'.tun == st.tun + [Delivery(st.current.value, counter, plain)])
  {
    TakenIffDue(st, peer, kind, counter, box, now);
  }

  // ---------------------------------------------------------------------------
  // ... over runs

  /** Seal `k` is the other host's, in the session mirrored to session `sid` of host `r`, and
      gave this packet. */
  ghost predicate PeerSealed(s: System, r: Role, sid: nat, kind: Kind, counter: uint64, box: Box, k: nat)
  {
    && k < |s.seals| && sid < |s.Of(r).st.sessions|
    && var x := s.seals[k];
    && x.role == Other(r) && x.sid < |s.Of(Other(r)).st.sessions|
    && Mirrored(s.Of(r).st.sessions[sid], s.Of(Other(r)).st.sessions[x.sid])
    && x.kind == kind && WireCounter(x.n) == counter && x.Box() == box
  }

  lemma PeerSealOpens(s: System, r: Role, sid: nat, kind: Kind, counter: uint64, box: Box, k: nat)
    requires Inv(s) && PeerSealed(s, r, sid, kind, counter, box, k)
    ensures box == Sealed(s.Of(r).st.sessions[sid].rx, counter, kind, counter, s.seals[k].plain)
  {
    var x := s.seals[k];
    assert SealInv(x, s.boxes, Of(x.role, s.iran.st.sessions, s.kharej.st.sessions));
  }

  /** Nothing opens in a session but what the peer sealed in the mirrored one. */
  lemma OpensIsSealed(s: System, r: Role, sid: nat, kind: Kind, counter: uint64, box: Box, plain: Bytes)
    requires Inv(s) && sid < |s.Of(r).st.sessions| && BoxAvailable(s, box)
    requires box == Sealed(s.Of(r).st.sessions[sid].rx, counter, kind, counter, plain)
    ensures exists k: nat :: PeerSealed(s, r, sid, kind, counter, box, k) && s.seals[k].plain == plain
  {
    var k :| 0 <= k < |s.seals| && s.seals[k].Box() == box;
    var x := s.seals[k];
    assert SealInv(x, s.boxes, Of(x.role, s.iran.st.sessions, s.kharej.st.sessions));
    KeyOfRole(s, r, sid);
    KeyOfRole(s, x.role, x.sid);
    assert PeerSealed(s, r, sid, kind, counter, box, k);
  }

  /** The conditions of delivery in a run, for the peer's seal `k`. */
  ghost predicate Deliverable(s: System, r: Role, peer: Peer, kind: Kind, counter: uint64, box: Box, k: nat)
  {
    && s.Of(r).st.current.Some? && s.Of(r).st.current.value < |s.Of(r).st.sessions|
    && var x := s.Of(r).st.sessions[s.Of(r).st.current.value];
    && x.peer == peer && Admits(x.accepted, counter) && kind.Data?
    && PeerSealed(s, r, s.Of(r).st.current.value, kind, counter, box, k) && s.seals[k].plain != []
  }

  lemma DueIffDeliverable(s: System, r: Role, peer: Peer, kind: Kind, counter: uint64, box: Box)
    requires Inv(s) && BoxAvailable(s, box)
    ensures (exists k: nat :: Deliverable(s, r, peer, kind, counter, box, k)) <==>
      kind.Data? && exists plain :: plain != [] && Due(s.Of(r).st, peer, kind, counter, box, plain)
    ensures forall k: nat :: Deliverable(s, r, peer, kind, counter, box, k) ==>
      Due(s.Of(r).st, peer, kind, counter, box, s.seals[k].plain)
  {
    var st := s.Of(r).st;
    forall k: nat | Deliverable(s, r, peer, kind, counter, box, k)
      ensures Due(st, peer, kind, counter, box, s.seals[k].plain)
    {
      PeerSealOpens(s, r, st.current.value, kind, counter, box, k);
    }
    if kind.Data? && exists plain :: plain != [] && Due(st, peer, kind, counter, box, plain) {
      var plain :| plain != [] && Due(st, peer, kind, counter, box, plain);
      OpensIsSealed(s, r, st.current.value, kind, counter, box, plain);
      var k: nat :| PeerSealed(s, r, st.current.value, kind, counter, box, k) && s.seals[k].plain == plain;
      assert Deliverable(s, r, peer, kind, counter, box, k);
    }
  }

  /** In every reachable state an idle worker that takes a datagram and finishes with it
      writes to the TUN if and only if the peer sealed it as data with a payload in the
      session mirrored to the current one, it comes from that session's peer, and its counter
      is new; and then it writes exactly that payload. */
  lemma DeliversWhatPeerSealed(iw: nat, kw: nat, s: System, r: Role, w: nat, peer: Peer, kind: Kind,
      counter: uint64, box: Box, now: int)
    returns (run: seq<Action>)
    requires Reachable(iw, kw, s) && Enabled(s, TakeEncrypted(r, w, peer, kind, counter, box))
    ensures Exec(s, run).Some?
    ensures var tun, tun' := s.Of(r).st.tun, Exec(s, run).value.Of(r).st.tun;
      && (tun' != tun <==> exists k: nat :: Deliverable(s, r, peer, kind, counter, box, k))
      && (forall k: nat :: Deliverable(s, r, peer, kind, counter, box, k) ==>
            tun' == tun + [Delivery(s.Of(r).st.current.value, counter, s.seals[k].plain)])
  {
    ReachableInv(iw, kw, s);
    run := EncryptedInSteps(s, r, w, peer, kind, counter, box, now);
    DeliversIff(s.Of(r).st, peer, kind, counter, box, now);
    DueIffDeliverable(s, r, peer, kind, counter, box);
  }

  // ---------------------------------------------------------------------------
  // The handshake

  /** A hello that verifies, is timely and not on record opens a session; one on record is
      answered without; any other is ignored. */
  lemma HelloOpensIff(st: State, peer: Peer, ts: int, cn: Nonce, tag: Tag, clock: int, now: int, sn: Nonce)
    ensures var out := HandleHello(st, peer, ts, cn, tag, clock, now, sn);
      var heard := tag == Mac(HelloInput(ts, cn)) && -90 * SECOND <= clock - ts <= 90 * SECOND;
      var onRecord := cn in st.hellos && now <= st.hellos[cn].expires;
      && (out.1.Some? <==> heard)
      && (|out.0.sessions| == |st.sessions| + 1 <==> heard && !onRecord)
      && (heard && onRecord ==> out.0.sessions == st.sessions && out.1 == Some(st.hellos[cn].ack))
      && (!heard ==> out.0 == st)
  {
  }

  /** A session just set up: nothing sent, nothing received. */
  predicate Unused(x: SessionState, peer: Peer, now: int)
  {
    x.peer == peer && x.created == now && x.lastSeen == now && x.sent == 0 && x.accepted == {}
  }

  /** The client's state `c'` after an ack: the new current session has the keys of `y`,
      swapped. */
  predicate Joined(c: State, c': State, y: SessionState, peer: Peer, now: int)
  {
    && |c'.sessions| == |c.sessions| + 1 && c'.current == Some(|c.sessions|) && !c'.pendingSet
    && Unused(c'.sessions[|c.sessions|], peer, now) && Mirrored(c'.sessions[|c.sessions|], y)
  }

  /** The round trip: the server's own answer to a hello, handed to the client that waits for
      it, installs the mirrored session, whatever else client and server have been doing. */
  lemma HandshakeRoundTrip(st: State, peer: Peer, ts: int, cn: Nonce, clock: int, now: int, sn: Nonce,
      c: State, peer': Peer, now': int)
    requires Timely(clock, ts) && (cn in st.hellos ==> now > st.hellos[cn].expires)
    requires c.pendingSet && c.pending == cn
    ensures var out := HandleHello(st, peer, ts, cn, Mac(HelloInput(ts, cn)), clock, now, sn);
      && |out.0.sessions| == |st.sessions| + 1 && out.0.current == Some(|st.sessions|)
      && Unused(out.0.sessions[|st.sessions|], peer, now)
      && out.1.Some? && out.1.value.HelloAck?
      && var ack := out.1.value;
      Joined(c, HandleHelloAck(c, peer', ack.cn, ack.sn, ack.tag, now'), out.0.sessions[|st.sessions|], peer', now')
  {
  }

  /** The same for a repeated hello: in every reachable state the answer on record leads the
      client to a session that the server has derived for this hello. */
  lemma RepeatedHelloJoins(iw: nat, kw: nat, s: System, peer: Peer, ts: int, cn: Nonce, clock: int, now: int, sn: Nonce,
      c: State, peer': Peer, now': int)
    returns (k: nat)
    requires Reachable(iw, kw, s) && Timely(clock, ts)
    requires cn in s.kharej.st.hellos && now <= s.kharej.st.hellos[cn].expires
    requires c.pendingSet && c.pending == cn
    ensures var out := HandleHello(s.kharej.st, peer, ts, cn, Mac(HelloInput(ts, cn)), clock, now, sn);
      && out.0.sessions == s.kharej.st.sessions && k < |out.0.sessions| && out.0.sessions[k].tx.cn == cn
      && out.1.Some? && out.1.value.HelloAck?
      && var ack := out.1.value;
      Joined(c, HandleHelloAck(c, peer', ack.cn, ack.sn, ack.tag, now'), out.0.sessions[k], peer', now')
  {
    ReachableInv(iw, kw, s);
    var xs, sn' := s.kharej.st.sessions, s.kharej.st.hellos[cn].ack.sn;
    assert HasPair(xs, cn, sn');
    k :| 0 <= k < |xs| && xs[k].tx.cn == cn && xs[k].tx.sn == sn';
    KeyOfRole(s, Kharej, k);
  }

  /** The first data packet in a mirrored pair of unused sessions arrives, either way. */
  lemma FirstPacketArrives(a: State, b: State, plain: Bytes, now: int, peer: Peer, created: int, created': int,
      peer': Peer)
    requires a.current.Some? && a.current.value < |a.sessions| && b.current.Some? && b.current.value < |b.sessions|
    requires Unused(a.sessions[a.current.value], peer', created) && Unused(b.sessions[b.current.value], peer, created')
    requires Mirrored(a.sessions[a.current.value], b.sessions[b.current.value]) && plain != []
    ensures var packet := SendEncrypted(a, a.current.value, Data, plain, true).1;
      && packet.Encrypted?
      && HandleEncrypted(b, peer, packet.kind, packet.counter, packet.box, now).tun
         == b.tun + [Delivery(b.current.value, 1, plain)]
  {
    var packet := SendEncrypted(a, a.current.value, Data, plain, true).1;
    assert Open(a.sessions[a.current.value].tx, Data, packet.counter, packet.box) == Some(plain);
    assert WireCounter(1) == 1;
    assert Due(b, peer, Data, 1, packet.box, plain);
    DeliversIff(b, peer, Data, 1, packet.box, now);
  }

  // ---------------------------------------------------------------------------
  // Probes

  /** The channel keeps what it holds and takes the nonce while there is room for 32. */
  lemma NotifyQueues(ch: Option<seq<ProbeNonce>>, nonce: ProbeNonce)
    ensures Notify(ch, nonce).Some? <==> ch.Some?
    ensures ch.Some? && |ch.value| < 32 ==> Notify(ch, nonce).value == ch.value + [nonce]
    ensures ch.Some? && |ch.value| >= 32 ==> Notify(ch, nonce) == ch
  {
  }

  lemma AckIsQueued(st: State, peer: Peer, counter: uint64, box: Box, p: ProbeNonce, now: int)
    requires Due(st, peer, DirectProbeAck, counter, box, p) && st.probeAcks.Some? && |st.probeAcks.value| < 32
    ensures HandleEncrypted(st, peer, DirectProbeAck, counter, box, now).probeAcks == Some(st.probeAcks.value + [p])
  {
    NotifyQueues(st.probeAcks, p);
  }

  /** The monitor reads the channel until it finds the ack of its round. */
  lemma {:induction false} MonitorFinds(s0: System, before: seq<Action>, s: System, p: ProbeNonce)
      returns (run: seq<Action>)
    requires Exec(s0, before) == Some(s) && s.round == Some(p)
    requires s.kharej.st.probeAcks.Some? && p in s.kharej.st.probeAcks.value
    ensures Exec(s0, run).Some? && Exec(s0, run).value.results == s.results + [(p, true)]
    decreases |s.kharej.st.probeAcks.value|
  {
    var ch := s.kharej.st.probeAcks.value;
    ExecSnoc(s0, before, AwaitAck);
    run := before + [AwaitAck];
    if ch[0] != p {
      assert ch == [ch[0]] + ch[1..];
      run := MonitorFinds(s0, run, Apply(s, AwaitAck), p);
    }
  }

  /** A probe that Iran acknowledged counts: from every reachable state in which the monitor
      waits for it, the ack is sealed in the session mirrored to Kharej's current one with a
      counter that is new, a worker is idle and the channel has room, a continuation records
      the success of this round. */
  lemma AcknowledgedProbeCounts(iw: nat, kw: nat, s: System, w: nat, p: ProbeNonce, counter: uint64, box: Box,
      k: nat, now: int)
    returns (run: seq<Action>)
    requires Reachable(iw, kw, s) && s.round == Some(p) && w < |s.kharej.workers| && s.kharej.workers[w].Idle?
    requires s.kharej.st.current.Some? && s.kharej.st.current.value < |s.kharej.st.sessions|
    requires PeerSealed(s, Kharej, s.kharej.st.current.value, DirectProbeAck, counter, box, k) && s.seals[k].plain == p
    requires Admits(s.kharej.st.sessions[s.kharej.st.current.value].accepted, counter)
    requires s.kharej.st.probeAcks.Some? && |s.kharej.st.probeAcks.value| < 32
    ensures Exec(s, run).Some? && Exec(s, run).value.results == s.results + [(p, true)]
  {
    ReachableInv(iw, kw, s);
    var sid := s.kharej.st.current.value;
    var peer := s.kharej.st.sessions[sid].peer;
    PeerSealOpens(s, Kharej, sid, DirectProbeAck, counter, box, k);
    assert SealInv(s.seals[k], s.boxes, Of(Iran, s.iran.st.sessions, s.kharej.st.sessions));
    run := EncryptedInSteps(s, Kharej, w, peer, DirectProbeAck, counter, box, now);
    AckIsQueued(s.kharej.st, peer, counter, box, p, now);
    run := MonitorFinds(s, run, Exec(s, run).value, p);
  }
}
