/** One host's tunnel state as a value, and the atomic steps of transport.go on it.
    Sessions are numbered in the order they are derived; a goroutine that still holds
    an older session holds its number. */
module Endpoint {
  import opened Words
  import opened Messages
  import opened Replay

  datatype SessionState = SessionState(
    tx: Key, rx: Key, peer: Peer, created: int,
    sent: nat,            // how often the 64-bit send counter was incremented
    accepted: set<nat>,   // the replay window, as the set it refines
    lastSeen: int, txBytes: uint64, rxBytes: uint64)

  datatype HelloRecord = HelloRecord(expires: int, ack: Datagram)

  datatype Metrics = Metrics(
    dataTxBytes: uint64, dataRxBytes: uint64, dataTxPackets: uint64, dataRxPackets: uint64,
    controlTxBytes: uint64, controlRxBytes: uint64, controlTxPkts: uint64, controlRxPkts: uint64,
    sendErrors: uint64, decryptErrors: uint64, replayDrops: uint64)

  /** One write to the TUN, with the session and counter it came from. */
  datatype Delivery = Delivery(sid: nat, counter: uint64, plain: Bytes)

  datatype State = State(
    sessions: seq<SessionState>,
    current: Option<nat>,
    pending: Nonce, pendingSet: bool,
    hellos: map<Nonce, HelloRecord>,
    probeAcks: Option<seq<ProbeNonce>>,   // the probe channel, once it was made
    metrics: Metrics,
    tun: seq<Delivery>)
  {
    predicate Valid()
    {
      current.Some? ==> current.value < |sessions|
    }
  }

  const ZERO_METRICS := Metrics(0, 0, 0, 0, 0, 0, 0, 0, 0, 0, 0)

  function Fresh(smart: bool): State
  {
    State([], None, 0, false, map[], if smart then Some([]) else None, ZERO_METRICS, [])
  }

  // ---------------------------------------------------------------------------
  // Sessions

  /** deriveSession */
  function Derive(role: Role, cn: Nonce, sn: Nonce, peer: Peer, now: int): SessionState
  {
    SessionState(TxKey(role, cn, sn), RxKey(role, cn, sn), peer, now, 0, {}, now, 0, 0)
  }

  function AddSession(st: State, s: SessionState): State
  {
    st.(sessions := st.sessions + [s])
  }

  function StoreSession(st: State, sid: nat): State
  {
    st.(current := Some(sid))
  }

  function ClearIf(st: State, sid: nat): State
  {
    if st.current == Some(sid) then st.(current := None) else st
  }

  // ---------------------------------------------------------------------------
  // Handshake, client side

  function BeginHandshake(st: State, cn: Nonce): State
  {
    st.(pending := cn, pendingSet := true)
  }

  function EndHandshake(st: State, cn: Nonce): State
  {
    if st.pending == cn then st.(pendingSet := false) else st
  }

  /** The check of a verified HelloAck against the pending handshake. */
  predicate AckExpected(st: State, cn: Nonce)
  {
    st.pendingSet && st.pending == cn
  }

  function ConsumePending(st: State): State
  {
    st.(pendingSet := false)
  }

  // ---------------------------------------------------------------------------
  // Handshake, server side

  /** A timestamp is accepted within 90 seconds of the clock, both ways. */
  predicate Timely(clock: int, ts: int)
  {
    -90 * SECOND <= clock - ts <= 90 * SECOND
  }

  /** Drops the records whose time is up. */
  function Purge(hellos: map<Nonce, HelloRecord>, now: int): map<Nonce, HelloRecord>
  {
    map cn | cn in hellos && !(now > hellos[cn].expires) :: hellos[cn]
  }

  function PurgeHellos(st: State, now: int): State
  {
    st.(hellos := Purge(st.hellos, now))
  }

  /** A hello not on record: derive a session for it and remember its answer. */
  function RecordHello(st: State, cn: Nonce, sn: Nonce, peer: Peer, now: int): State
  {
    AddSession(st, Derive(Kharej, cn, sn, peer, now))
      .(hellos := st.hellos[cn := HelloRecord(now + 120 * SECOND, MakeHelloAck(cn, sn))])
  }

  // ---------------------------------------------------------------------------
  // Encrypted traffic

  /** loadSession and the peer check at the top of handleEncrypted. */
  function Gate(st: State, peer: Peer): (r: Option<nat>)
    ensures r.Some? ==> r.value < |st.sessions|
  {
    if st.Valid() && st.current.Some? && st.sessions[st.current.value].peer == peer then st.current else None
  }

  function CountDecryptError(st: State): State
  {
    st.(metrics := st.metrics.(decryptErrors := Add(st.metrics.decryptErrors, 1)))
  }

  function CountReplayDrop(st: State): State
  {
    st.(metrics := st.metrics.(replayDrops := Add(st.metrics.replayDrops, 1)))
  }

  function AcceptCounter(st: State, sid: nat, counter: uint64): State
    requires sid < |st.sessions|
  {
    var s := st.sessions[sid];
    st.(sessions := st.sessions[sid := s.(accepted := s.accepted + {counter as nat})])
  }

  /** notifyProbeAck: a channel of 32 that drops when full. */
  function Notify(ch: Option<seq<ProbeNonce>>, nonce: ProbeNonce): Option<seq<ProbeNonce>>
  {
    if ch.Some? && |ch.value| < 32 then Some(ch.value + [nonce]) else ch
  }

  function CountRx(m: Metrics, kind: Kind, len: uint64): Metrics
  {
    if kind.Data? then m.(dataRxBytes := Add(m.dataRxBytes, len), dataRxPackets := Add(m.dataRxPackets, 1))
    else m.(controlRxBytes := Add(m.controlRxBytes, len), controlRxPkts := Add(m.controlRxPkts, 1))
  }

  /** touch, the receive counters, and the payload's destination. */
  function Deliver(st: State, sid: nat, kind: Kind, counter: uint64, plain: Bytes, now: int): State
    requires sid < |st.sessions|
  {
    var s := st.sessions[sid];
    st.(sessions := st.sessions[sid := s.(lastSeen := now, rxBytes := Add(s.rxBytes, Len(plain)))],
        metrics := CountRx(st.metrics, kind, Len(plain)),
        tun := if kind.Data? && |plain| > 0 then st.tun + [Delivery(sid, counter, plain)] else st.tun,
        probeAcks := if kind.DirectProbeAck? && |plain| == 16 then Notify(st.probeAcks, plain) else st.probeAcks)
  }

  /** sendEncrypted's atomic increment; the packet carries the counter modulo 2^64. */
  function TakeCounter(st: State, sid: nat): State
    requires sid < |st.sessions|
  {
    var s := st.sessions[sid];
    st.(sessions := st.sessions[sid := s.(sent := s.sent + 1)])
  }

  function WireCounter(n: nat): uint64
  {
    n % U64
  }

  function CountTx(m: Metrics, kind: Kind, len: uint64, ok: bool): Metrics
  {
    if !ok then m.(sendErrors := Add(m.sendErrors, 1))
    else if kind.Data? then m.(dataTxBytes := Add(m.dataTxBytes, len), dataTxPackets := Add(m.dataTxPackets, 1))
    else m.(controlTxBytes := Add(m.controlTxBytes, len), controlTxPkts := Add(m.controlTxPkts, 1))
  }

  /** The books after the carrier took the packet, or refused it. */
  function CountSend(st: State, sid: nat, kind: Kind, plain: Bytes, ok: bool): State
    requires sid < |st.sessions|
  {
    var s := st.sessions[sid];
    st.(sessions := if ok then st.sessions[sid := s.(txBytes := Add(s.txBytes, Len(plain)))] else st.sessions,
        metrics := CountTx(st.metrics, kind, Len(plain), ok))
  }

  // ---------------------------------------------------------------------------
  // The handlers run start to finish by a single goroutine

  function HandleHello(st: State, peer: Peer, ts: int, cn: Nonce, tag: Tag, clock: int, now: int, sn: Nonce)
    : (State, Option<Datagram>)
  {
    if tag != Mac(HelloInput(ts, cn)) || !Timely(clock, ts) then (st, None)
    else
      var st1 := PurgeHellos(st, now);
      if cn in st1.hellos then (st1, Some(st1.hellos[cn].ack))
      else (StoreSession(RecordHello(st1, cn, sn, peer, now), |st.sessions|), Some(MakeHelloAck(cn, sn)))
  }

  function HandleHelloAck(st: State, peer: Peer, cn: Nonce, sn: Nonce, tag: Tag, now: int): State
  {
    if tag != Mac(AckInput(cn, sn)) || !AckExpected(st, cn) then st
    else StoreSession(AddSession(ConsumePending(st), Derive(Iran, cn, sn, peer, now)), |st.sessions|)
  }

  function HandleEncrypted(st: State, peer: Peer, kind: Kind, counter: uint64, box: Box, now: int): State
  {
    var g := Gate(st, peer);
    if g.None? then st else OpenAndDeliver(st, g.value, kind, counter, box, now)
  }

  /** The handler once it has loaded its session. */
  function OpenAndDeliver(st: State, sid: nat, kind: Kind, counter: uint64, box: Box, now: int): State
    requires sid < |st.sessions|
  {
    var plain := Open(st.sessions[sid].rx, kind, counter, box);
    if plain.None? then CountDecryptError(st)
    else if !Admits(st.sessions[sid].accepted, counter) then CountReplayDrop(st)
    else Deliver(AcceptCounter(st, sid, counter), sid, kind, counter, plain.value, now)
  }

  /** The packet carries the next counter of the session and opens, to this plaintext, under
      the session's sending key and no other. */
  function SendEncrypted(st: State, sid: nat, kind: Kind, plain: Bytes, ok: bool): (out: (State, Datagram))
    requires sid < |st.sessions|
    ensures out.1.Encrypted? && out.1.kind == kind && out.1.counter == WireCounter(st.sessions[sid].sent + 1)
    ensures out.1.box.Sealed?
    ensures forall key ::
      Open(key, kind, out.1.counter, out.1.box) == if key == st.sessions[sid].tx then Some(plain) else None
  {
    var st1 := TakeCounter(st, sid);
    var counter := WireCounter(st1.sessions[sid].sent);
    (CountSend(st1, sid, kind, plain, ok),
     Encrypted(kind, counter, Seal(st1.sessions[sid].tx, kind, counter, plain)))
  }
}
