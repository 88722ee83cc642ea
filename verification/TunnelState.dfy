/** The mutable tunnel state of transport.go: each handler, run by one goroutine, does to
    the fields what the step of the same name does to the state value. */
module TunnelStates {
  import opened Words
  import opened Messages
  import opened Replay
  import E = Endpoint

  class Session {
    const txKey: Key
    const rxKey: Key
    const peer: Peer
    const created: int
    const replay: ReplayWindow
    var tx: uint64
    var lastSeen: int
    var txBytes: uint64
    var rxBytes: uint64
    ghost var sent: nat   // increments of `tx`, without the wrap-around

    ghost predicate Valid()
      reads this, replay
    {
      replay.Valid() && tx == E.WireCounter(sent)
    }

    ghost function View(): E.SessionState
      reads this, replay
    {
      E.SessionState(txKey, rxKey, peer, created, sent, replay.accepted, lastSeen, txBytes, rxBytes)
    }

    /** deriveSession */
    constructor (cn: Nonce, sn: Nonce, peer: Peer, initiator: bool, now: int)
      ensures Valid() && fresh(replay)
      ensures View() == E.Derive(if initiator then Iran else Kharej, cn, sn, peer, now)
    {
      var c2s, s2c := Key(C2S, cn, sn), Key(S2C, cn, sn);
      if initiator {
        this.txKey, this.rxKey := c2s, s2c;
      } else {
        this.txKey, this.rxKey := s2c, c2s;
      }
      this.peer, this.created := peer, now;
      this.replay := new ReplayWindow();
      this.tx, this.lastSeen, this.txBytes, this.rxBytes := 0, now, 0, 0;
      this.sent := 0;
    }
  }

  ghost function ViewsOf(ss: seq<Session>): (r: seq<E.SessionState>)
    reads ss, set s | s in ss :: s.replay
    ensures |r| == |ss| && forall i :: 0 <= i < |ss| ==> r[i] == ss[i].View()
  {
    seq(|ss|, i requires 0 <= i < |ss| reads ss, set s | s in ss :: s.replay => ss[i].View())
  }

  /** Sessions share neither their fields nor their windows. */
  ghost predicate Healthy(ss: seq<Session>)
    reads ss, set s | s in ss :: s.replay
  {
    && (forall i :: 0 <= i < |ss| ==> ss[i].Valid())
    && (forall i, j :: 0 <= i < j < |ss| ==> ss[i] != ss[j] && ss[i].replay != ss[j].replay)
  }

  /** A wait read `i` acks of other rounds from the channel `ch`, then either the awaited
      one or nothing more, and left `rest`. */
  predicate Drained(ch: seq<ProbeNonce>, rest: seq<ProbeNonce>, nonce: ProbeNonce, patience: nat, i: nat, found: bool)
  {
    && i <= |ch| && nonce !in ch[..i]
    && if found then i < |ch| && i < patience && ch[i] == nonce && rest == ch[i + 1..]
       else (i == patience || i == |ch|) && rest == ch[i..]
  }

  class TunnelState {
    var session: Session?
    var pending: Nonce
    var pendingSet: bool
    var hellos: map<Nonce, E.HelloRecord>
    var probeAck: Option<seq<ProbeNonce>>
    var metrics: E.Metrics
    var tun: seq<Bytes>                  // what was written to the TUN
    ghost var deliveries: seq<E.Delivery>   // the same writes, with their origin
    ghost var all: seq<Session>          // every session ever stored
    ghost var current: Option<nat>       // which of them `session` is

    ghost predicate Valid()
      reads this, all, set s | s in all :: s.replay
    {
      Healthy(all) && CurrentValid() && TunValid()
    }

    ghost predicate CurrentValid()
      reads this`session, this`current, this`all
    {
      && (session == null <==> current.None?)
      && (current.Some? ==> current.value < |all| && all[current.value] == session)
    }

    ghost predicate TunValid()
      reads this`tun, this`deliveries
    {
      |tun| == |deliveries| && forall i :: 0 <= i < |tun| ==> tun[i] == deliveries[i].plain
    }

    ghost function Views(): seq<E.SessionState>
      reads this`all, all, set s | s in all :: s.replay
    {
      ViewsOf(all)
    }

    ghost function View(): E.State
      reads this, all, set s | s in all :: s.replay
    {
      E.State(Views(), current, pending, pendingSet, hellos, probeAck, metrics, deliveries)
    }

    constructor (smart: bool)
      ensures Valid() && View() == E.Fresh(smart)
    {
      session, pending, pendingSet, hellos := null, 0, false, map[];
      probeAck := if smart then Some([]) else None;
      metrics, tun, deliveries, all, current := E.ZERO_METRICS, [], [], [], None;
    }

    /** storeSession of a session just derived. */
    method StoreSession(v: Session)
      requires Valid() && v.Valid()
      requires forall s :: s in all ==> s != v && s.replay != v.replay
      modifies this`session, this`all, this`current
      ensures Valid() && session == v && all == old(all) + [v]
      ensures View() == E.StoreSession(E.AddSession(old(View()), v.View()), |old(all)|)
    {
      session := v;
      all := all + [v];
      current := Some(|all| - 1);
      assert Views() == old(Views()) + [v.View()];
    }

    method ClearIf(v: Session) returns (cleared: bool)
      requires Valid() && v in all
      modifies this
      ensures Valid() && all == old(all)
      ensures cleared == (old(session) == v) && session == if cleared then null else old(session)
      ensures forall sid: nat :: sid < |all| && all[sid] == v ==> View() == E.ClearIf(old(View()), sid)
    {
      if session != v {
        return false;
      }
      session := null;
      current := None;
      assert Views() == old(Views());
      return true;
    }

    method BeginHandshake(cn: Nonce)
      requires Valid()
      modifies this
      ensures Valid() && all == old(all) && View() == E.BeginHandshake(old(View()), cn)
      ensures pendingSet && pending == cn
    {
      pending := cn;
      pendingSet := true;
      assert Views() == old(Views());
    }

    method EndHandshake(cn: Nonce)
      requires Valid()
      modifies this
      ensures Valid() && all == old(all) && View() == E.EndHandshake(old(View()), cn)
      ensures pending == old(pending) && pendingSet == (old(pendingSet) && pending != cn)
    {
      if pending == cn {
        pendingSet := false;
      }
      assert Views() == old(Views());
    }

    /** deriveSession, then storeSession. */
    method Establish(cn: Nonce, sn: Nonce, peer: Peer, initiator: bool, now: int)
      requires Valid()
      modifies this`session, this`all, this`current
      ensures Valid()
      ensures View() == E.StoreSession(E.AddSession(old(View()),
        E.Derive(if initiator then Iran else Kharej, cn, sn, peer, now)), |old(all)|)
    {
      var ss := new Session(cn, sn, peer, initiator, now);
      StoreSession(ss);
    }

    /** The answer to a hello, if any, is what goes back to the peer. */
    method HandleHello(peer: Peer, ts: int, cn: Nonce, tag: Tag, clock: int, now: int, sn: Nonce)
      returns (reply: Option<Datagram>)
      requires Valid()
      modifies this
      ensures Valid()
      ensures (View(), reply) == E.HandleHello(old(View()), peer, ts, cn, tag, clock, now, sn)
    {
      if tag != Mac(HelloInput(ts, cn)) {
        return None;
      }
      var skew := clock - ts;
      if skew > 90 * SECOND || skew < -90 * SECOND {
        return None;
      }
      hellos := E.Purge(hellos, now);
      if cn in hellos {
        return Some(hellos[cn].ack);
      }
      var ack := MakeHelloAck(cn, sn);
      hellos := hellos[cn := E.HelloRecord(now + 120 * SECOND, ack)];
      Establish(cn, sn, peer, false, now);
      return Some(ack);
    }

    method HandleHelloAck(peer: Peer, cn: Nonce, sn: Nonce, tag: Tag, now: int)
      requires Valid()
      modifies this
      ensures Valid()
      ensures View() == E.HandleHelloAck(old(View()), peer, cn, sn, tag, now)
    {
      if tag != Mac(AckInput(cn, sn)) {
        return;
      }
      var ok := pendingSet && pending == cn;
      if ok {
        pendingSet := false;
      }
      if !ok {
        return;
      }
      Establish(cn, sn, peer, true, now);
    }

    method NotifyProbeAck(nonce: ProbeNonce)
      modifies this`probeAck
      ensures probeAck == E.Notify(old(probeAck), nonce)
      ensures old(probeAck).None? <==> probeAck.None?
      ensures old(probeAck).Some? ==>
        probeAck.value == old(probeAck).value + if |old(probeAck).value| < 32 then [nonce] else []
    {
      if probeAck.None? {
        return;
      }
      if |probeAck.value| < 32 {
        probeAck := Some(probeAck.value + [nonce]);
      }
    }

    method InitProbeAck()
      modifies this`probeAck
      ensures probeAck == if old(probeAck).Some? then old(probeAck) else Some([])
    {
      if probeAck.None? {
        probeAck := Some([]);
      }
    }

    /** waitProbeAck, when the timer or the context ends the wait after `patience` reads of
        the channel at the latest. Acks of other rounds are read and forgotten. */
    method WaitProbeAck(nonce: ProbeNonce, patience: nat) returns (ok: bool)
      modifies this`probeAck
      ensures probeAck.Some?
      ensures var ch := if old(probeAck).Some? then old(probeAck).value else [];
        exists i :: Drained(ch, probeAck.value, nonce, patience, i, ok)
    {
      InitProbeAck();
      ghost var ch := probeAck.value;
      var taken := 0;
      while taken < patience && probeAck.value != []
        invariant probeAck.Some? && 0 <= taken <= |ch| && taken <= patience
        invariant probeAck.value == ch[taken..] && nonce !in ch[..taken]
      {
        var got := probeAck.value[0];
        probeAck := Some(probeAck.value[1..]);
        if got == nonce {
          assert Drained(ch, probeAck.value, nonce, patience, taken, true);
          return true;
        }
        assert ch[..taken + 1] == ch[..taken] + [got];
        taken := taken + 1;
      }
      assert Drained(ch, probeAck.value, nonce, patience, taken, false);
      return false;
    }

    method HandleEncrypted(peer: Peer, kind: Kind, counter: uint64, box: Box, now: int)
      requires Valid()
      modifies this, session, set s | s in all && s == session :: s.replay
      ensures Valid() && all == old(all)
      ensures View() == E.HandleEncrypted(old(View()), peer, kind, counter, box, now)
    {
      var ss := session;
      if ss == null || peer != ss.peer {
        return;
      }
      OpenAndDeliver(ss, current.value, kind, counter, box, now);
    }

    /** The handler once it has loaded its session. */
    method OpenAndDeliver(ss: Session, ghost sid: nat, kind: Kind, counter: uint64, box: Box, now: int)
      requires Valid() && sid < |all| && all[sid] == ss
      modifies this, ss, ss.replay
      ensures Valid() && all == old(all)
      ensures View() == E.OpenAndDeliver(old(View()), sid, kind, counter, box, now)
    {
      assert ss in all && ss.Valid();
      var plain := Open(ss.rxKey, kind, counter, box);
      if plain.None? {
        metrics := metrics.(decryptErrors := Add(metrics.decryptErrors, 1));
        assert Views() == old(Views());
        return;
      }
      var accepted := AcceptCounter(ss, sid, counter);
      if !accepted {
        metrics := metrics.(replayDrops := Add(metrics.replayDrops, 1));
        assert Views() == old(Views());
        return;
      }
      Deliver(ss, sid, kind, counter, plain.value, now);
    }

    method AcceptCounter(ss: Session, ghost sid: nat, counter: uint64) returns (accepted: bool)
      requires Valid() && sid < |all| && all[sid] == ss
      modifies ss.replay
      ensures Valid()
      ensures accepted <==> Admits(old(View()).sessions[sid].accepted, counter)
      ensures View() == if accepted then E.AcceptCounter(old(View()), sid, counter) else old(View())
    {
      assert ss in all && ss.Valid();
      accepted := ss.replay.Accept(counter);
      assert ss.replay.accepted == old(ss.replay.accepted) + (if accepted then {counter as nat} else {});
      forall i | 0 <= i < |all| && i != sid ensures all[i].View() == old(all[i].View()) && all[i].Valid() {
        assert all[i] in all && all[i].replay != ss.replay;
      }
      assert Views() == old(Views())[sid := ss.View()];
      assert old(Views())[sid] == old(ss.View());
      if !accepted {
        assert ss.View() == old(ss.View());
        assert Views() == old(Views());
      }
    }

    /** touch, and the session's receive counter. */
    method Touch(ss: Session, ghost sid: nat, len: uint64, now: int)
      requires Valid() && sid < |all| && all[sid] == ss
      modifies ss`lastSeen, ss`rxBytes
      ensures Valid() && unchanged(this)
      ensures Views() == old(Views())[sid := old(Views()[sid]).(lastSeen := now, rxBytes := Add(old(ss.rxBytes), len))]
    {
      ss.lastSeen := now;
      ss.rxBytes := Add(ss.rxBytes, len);
      assert ss in all;
      assert Views() == old(Views())[sid := ss.View()];
    }

    method CountRx(kind: Kind, len: uint64)
      modifies this`metrics
      ensures metrics == E.CountRx(old(metrics), kind, len)
    {
      if kind.Data? {
        metrics := metrics.(dataRxBytes := Add(metrics.dataRxBytes, len));
        metrics := metrics.(dataRxPackets := Add(metrics.dataRxPackets, 1));
      } else {
        metrics := metrics.(controlRxBytes := Add(metrics.controlRxBytes, len));
        metrics := metrics.(controlRxPkts := Add(metrics.controlRxPkts, 1));
      }
    }

    /** The counters and the payload's destination, by message type. */
    method Dispatch(ghost sid: nat, kind: Kind, counter: uint64, plain: Bytes)
      requires TunValid()
      modifies this`metrics, this`tun, this`deliveries, this`probeAck
      ensures TunValid()
      ensures metrics == E.CountRx(old(metrics), kind, Len(plain))
      ensures deliveries == old(deliveries) + if kind.Data?
        && |plain| > 0 then [E.Delivery(sid, counter, plain)] else []
      ensures probeAck == if kind.DirectProbeAck?
        && |plain| == 16 then E.Notify(old(probeAck), plain) else old(probeAck)
    {
      CountRx(kind, Len(plain));
      if kind.Data? {
        if |plain| > 0 {
          tun := tun + [plain];
          deliveries := deliveries + [E.Delivery(sid, counter, plain)];
        }
      } else if kind.DirectProbeAck? {
        if |plain| == 16 {
          NotifyProbeAck(plain);
        }
      }
    }

    method Deliver(ss: Session, ghost sid: nat, kind: Kind, counter: uint64, plain: Bytes, now: int)
      requires Valid() && sid < |all| && all[sid] == ss
      modifies this`metrics, this`tun, this`deliveries, this`probeAck, ss`lastSeen, ss`rxBytes
      ensures Valid()
      ensures View() == E.Deliver(old(View()), sid, kind, counter, plain, now)
    {
      Touch(ss, sid, Len(plain), now);
      Dispatch(sid, kind, counter, plain);
    }

    /** The atomic increment of the send counter. */
    method TakeCounter(s: Session, ghost sid: nat) returns (counter: uint64)
      requires Valid() && sid < |all| && all[sid] == s
      modifies s`tx, s`sent
      ensures Valid() && unchanged(this)
      ensures View() == E.TakeCounter(old(View()), sid) && counter == E.WireCounter(View().sessions[sid].sent)
      ensures counter == s.tx && s.tx == Add(old(s.tx), 1)
    {
      assert s in all && s.Valid();
      s.tx := Add(s.tx, 1);
      s.sent := s.sent + 1;
      counter := s.tx;
      assert counter == E.WireCounter(s.sent);
      assert Views() == old(Views())[sid := s.View()];
    }

    method CountTx(kind: Kind, len: uint64, ok: bool)
      modifies this`metrics
      ensures metrics == E.CountTx(old(metrics), kind, len, ok)
    {
      if ok {
        if kind.Data? {
          metrics := metrics.(dataTxBytes := Add(metrics.dataTxBytes, len));
          metrics := metrics.(dataTxPackets := Add(metrics.dataTxPackets, 1));
        } else {
          metrics := metrics.(controlTxBytes := Add(metrics.controlTxBytes, len));
          metrics := metrics.(controlTxPkts := Add(metrics.controlTxPkts, 1));
        }
      } else {
        metrics := metrics.(sendErrors := Add(metrics.sendErrors, 1));
      }
    }

    method CountSend(s: Session, ghost sid: nat, kind: Kind, payload: Bytes, ok: bool)
      requires Valid() && sid < |all| && all[sid] == s
      modifies this`metrics, s`txBytes
      ensures Valid()
      ensures View() == E.CountSend(old(View()), sid, kind, payload, ok)
    {
      assert s in all && s.Valid();
      if ok {
        s.txBytes := Add(s.txBytes, Len(payload));
      }
      assert Views() == old(Views())[sid := s.View()];
      CountTx(kind, Len(payload), ok);
    }

    /** `ok` is the carrier's verdict on the packet. */
    method SendEncrypted(s: Session, ghost sid: nat, kind: Kind, payload: Bytes, ok: bool) returns (packet: Datagram)
      requires Valid() && sid < |all| && all[sid] == s
      modifies this`metrics, s`tx, s`sent, s`txBytes
      ensures Valid()
      ensures (View(), packet) == E.SendEncrypted(old(View()), sid, kind, payload, ok)
      ensures packet.Encrypted? && packet.kind == kind && packet.counter == s.tx
      ensures Open(s.txKey, packet.kind, packet.counter, packet.box) == Some(payload)
    {
      var counter := TakeCounter(s, sid);
      packet := Encrypted(kind, counter, Seal(s.txKey, kind, counter, payload));
      CountSend(s, sid, kind, payload, ok);
    }
  }
}
