/** Safety of the HSH1 session protocol over every run. */
module ProtocolTheorems {
  import opened Words
  import opened Messages
  import opened Endpoint
  import opened Protocol
  import opened ProtocolInvariant

  // ---------------------------------------------------------------------------
  // Nonce uniqueness

  /** No two seals share an AEAD key and a 12-byte nonce. */
  ghost predicate NoncesUnique(s: System)
  {
    forall i, j :: 0 <= i < j < |s.seals| ==>
      s.seals[i].key != s.seals[j].key || WireCounter(s.seals[i].n) != WireCounter(s.seals[j].n)
  }

  /** No session sent more than 2^64 packets. */
  predicate CountersNotExhausted(s: System)
  {
    && (forall x :: x in s.iran.st.sessions ==> x.sent <= U64)
    && (forall x :: x in s.kharej.st.sessions ==> x.sent <= U64)
  }

  /** A key belongs to one session of one host. */
  lemma SameKeySameSession(s: System, i: nat, j: nat)
    requires Inv(s) && i < |s.seals| && j < |s.seals| && s.seals[i].key == s.seals[j].key
    ensures s.seals[i].role == s.seals[j].role && s.seals[i].sid == s.seals[j].sid
  {
    var x, y := s.seals[i], s.seals[j];
    assert SealInv(x, s.boxes, Of(x.role, s.iran.st.sessions, s.kharej.st.sessions));
    assert SealInv(y, s.boxes, Of(y.role, s.iran.st.sessions, s.kharej.st.sessions));
    KeyOfRole(s, x.role, x.sid);
    KeyOfRole(s, y.role, y.sid);
    if x.role == y.role && x.sid != y.sid { DistinctKeys(s, x.role, x.sid, y.sid); }
  }

  lemma KeyOfRole(s: System, r: Role, sid: nat)
    requires Inv(s) && sid < |s.Of(r).st.sessions|
    ensures KeysMatch(r, s.Of(r).st.sessions[sid])
  {
    assert SessionsInv(r, s.Of(r).st.sessions, s.used);
  }

  lemma DistinctKeys(s: System, r: Role, i: nat, j: nat)
    requires Inv(s) && i < |s.Of(r).st.sessions| && j < |s.Of(r).st.sessions| && i != j
    ensures s.Of(r).st.sessions[i].tx != s.Of(r).st.sessions[j].tx
    ensures s.Of(r).st.sessions[i].rx != s.Of(r).st.sessions[j].rx
  {
    assert SessionsInv(r, s.Of(r).st.sessions, s.used);
    var xs := s.Of(r).st.sessions;
    assert Own(r, xs[i].tx) != Own(r, xs[j].tx);
    KeyOfRole(s, r, i);
    KeyOfRole(s, r, j);
  }

  lemma SmallCountersDiffer(m: nat, n: nat)
    requires 1 <= m <= U64 && 1 <= n <= U64 && m != n
    ensures WireCounter(m) != WireCounter(n)
  {
  }

  lemma SealCounterBound(s: System, i: nat)
    requires Inv(s) && CountersNotExhausted(s) && i < |s.seals|
    ensures 1 <= s.seals[i].n <= U64
  {
    var x := s.seals[i];
    assert SealInv(x, s.boxes, Of(x.role, s.iran.st.sessions, s.kharej.st.sessions));
    assert s.Of(x.role).st.sessions[x.sid] in s.Of(x.role).st.sessions;
  }

  lemma SealOfCounter(s: System, r: Role, sid: nat, n: nat) returns (i: nat)
    requires SealsInv(s.seals, s.boxes, s.iran.st.sessions, s.kharej.st.sessions)
    requires SealsComplete(s.seals, r, s.Of(r).st.sessions)
    requires sid < |s.Of(r).st.sessions| && 1 <= n <= s.Of(r).st.sessions[sid].sent
    ensures i < |s.seals| && s.seals[i].n == n && s.seals[i].key == s.Of(r).st.sessions[sid].tx
  {
    assert SealedAt(s.seals, r, sid, n);
    i :| 0 <= i < |s.seals| && s.seals[i].role == r && s.seals[i].sid == sid && s.seals[i].n == n;
    assert SealInv(s.seals[i], s.boxes, Of(r, s.iran.st.sessions, s.kharej.st.sessions));
  }

  lemma ExhaustedRepeats(s: System, r: Role, sid: nat) returns (i: nat, j: nat)
    requires SealsInv(s.seals, s.boxes, s.iran.st.sessions, s.kharej.st.sessions)
    requires SealsComplete(s.seals, r, s.Of(r).st.sessions)
    requires sid < |s.Of(r).st.sessions| && s.Of(r).st.sessions[sid].sent > U64
    ensures i < |s.seals| && j < |s.seals| && i != j
    ensures s.seals[i].key == s.seals[j].key && WireCounter(s.seals[i].n) == WireCounter(s.seals[j].n)
  {
    assert WireCounter(U64 + 1) == WireCounter(1);
    i := SealOfCounter(s, r, sid, 1);
    j := SealOfCounter(s, r, sid, U64 + 1);
  }

  /** Over every run, with any number of handshakes and rekeys on both ends: an AEAD
      (key, nonce) pair repeats if and only if some session's 64-bit counter went all
      the way round. */
  lemma NonceUniqueness(iw: nat, kw: nat, s: System)
    requires Reachable(iw, kw, s)
    ensures NoncesUnique(s) <==> CountersNotExhausted(s)
  {
    ReachableInv(iw, kw, s);
    if CountersNotExhausted(s) {
      forall i, j | 0 <= i < j < |s.seals|
        ensures s.seals[i].key != s.seals[j].key || WireCounter(s.seals[i].n) != WireCounter(s.seals[j].n)
      {
        SealsDiffer(s, i, j);
      }
    } else {
      var r, sid := ExhaustedSession(s);
      var i, j := ExhaustedRepeats(s, r, sid);
    }
  }

  lemma SealsDiffer(s: System, i: nat, j: nat)
    requires Inv(s) && CountersNotExhausted(s) && i < j < |s.seals|
    ensures s.seals[i].key != s.seals[j].key || WireCounter(s.seals[i].n) != WireCounter(s.seals[j].n)
  {
    if s.seals[i].key == s.seals[j].key {
      SameKeySameSession(s, i, j);
      SealCounterBound(s, i);
      SealCounterBound(s, j);
      SmallCountersDiffer(s.seals[i].n, s.seals[j].n);
    }
  }

  lemma ExhaustedSession(s: System) returns (r: Role, sid: nat)
    requires !CountersNotExhausted(s)
    ensures sid < |s.Of(r).st.sessions| && s.Of(r).st.sessions[sid].sent > U64
  {
    if x :| x in s.iran.st.sessions && x.sent > U64 {
      r := Iran;
      sid :| 0 <= sid < |s.iran.st.sessions| && s.iran.st.sessions[sid] == x;
    } else {
      var y :| y in s.kharej.st.sessions && y.sent > U64;
      r := Kharej;
      sid :| 0 <= sid < |s.kharej.st.sessions| && s.kharej.st.sessions[sid] == y;
    }
  }

  /** Iran has installed session 0 and sent `n` packets in it. */
  ghost predicate Sending(s: System, n: nat)
  {
    0 in s.iran.installed && |s.iran.st.sessions| == 1 && s.iran.st.sessions[0].sent == n
  }

  /** A handshake: hello, session stored and acknowledged, session installed. */
  lemma Handshake(iw: nat, kw: nat) returns (run: seq<Action>, s: System)
    requires iw >= 1 && kw >= 1
    ensures Exec(Init(iw, kw), run) == Some(s) && Sending(s, 0)
  {
    var before, s2 := HelloArrives(iw, kw);
    var a3 := StoreHello(0);
    ExecSnoc(Init(iw, kw), before, a3);
    var s3 := Apply(s2, a3);
    assert AckInput(0, 1) in s3.macs;
    run, s := Answered(Init(iw, kw), before + [a3], s3);
  }

  lemma Answered(s0: System, before: seq<Action>, s3: System) returns (run: seq<Action>, s: System)
    requires Exec(s0, before) == Some(s3) && AckInput(0, 1) in s3.macs
    requires |s3.iran.workers| >= 1 && s3.iran.workers[0].Idle? && s3.iran.st.sessions == []
    requires s3.iran.st.pendingSet && s3.iran.st.pending == 0
    ensures Exec(s0, run) == Some(s) && Sending(s, 0)
  {
    var a4, a5 := TakeAck(0, "", 0, 1, Mac(AckInput(0, 1))), StoreAck(0, 0);
    ExecSnoc(s0, before, a4);
    var s4 := Apply(s3, a4);
    ExecSnoc(s0, before + [a4], a5);
    run, s := before + [a4] + [a5], Apply(s4, a5);
  }

  lemma SendsOn(s: System, n: nat)
    requires Sending(s, n)
    ensures var a := Action.Send(Iran, 0, Keepalive, [], true); Enabled(s, a) && Sending(Apply(s, a), n + 1)
  {
  }

  lemma {:induction false} KeepsSending(s0: System, before: seq<Action>, n: nat) returns (run: seq<Action>)
    requires Exec(s0, before).Some? && Sending(Exec(s0, before).value, 0)
    ensures Exec(s0, run).Some? && Sending(Exec(s0, run).value, n)
  {
    if n == 0 {
      run := before;
    } else {
      var front := KeepsSending(s0, before, n - 1);
      var a := Action.Send(Iran, 0, Keepalive, [], true);
      SendsOn(Exec(s0, front).value, n - 1);
      ExecSnoc(s0, front, a);
      run := front + [a];
    }
  }

  /** Nothing stops a session at the wrap-around: a run exists, for any number of workers,
      in which a (key, nonce) pair is sealed under twice. */
  lemma NoncesCanRepeat(iw: nat, kw: nat) returns (s: System)
    requires iw >= 1 && kw >= 1
    ensures Reachable(iw, kw, s) && !NoncesUnique(s)
  {
    var before, t := Handshake(iw, kw);
    var run := KeepsSending(Init(iw, kw), before, U64 + 1);
    s := Exec(Init(iw, kw), run).value;
    assert s.iran.st.sessions[0] in s.iran.st.sessions;
    NonceUniqueness(iw, kw, s);
  }

  // ---------------------------------------------------------------------------
  // Delivery: authentic, in the matching session, at most once

  /** Delivery `i` of host `r` is the payload of seal `k`: a data packet the other host
      sent, in the session with the mirrored keys. */
  ghost predicate Matches(s: System, r: Role, i: nat, k: nat)
    requires i < |s.Of(r).st.tun| && k < |s.seals|
  {
    var d, x := s.Of(r).st.tun[i], s.seals[k];
    && x.role == Other(r) && x.kind.Data? && x.plain == d.plain && WireCounter(x.n) == d.counter
    && d.sid < |s.Of(r).st.sessions| && x.sid < |s.Of(Other(r)).st.sessions|
    && s.Of(r).st.sessions[d.sid].rx == s.Of(Other(r)).st.sessions[x.sid].tx == x.key
    && s.Of(r).st.sessions[d.sid].tx == s.Of(Other(r)).st.sessions[x.sid].rx
  }

  /** Every write to a TUN was sent as data by the peer in the matching session,
      whatever the workers interleave and the network duplicates or reorders. */
  lemma DeliveryAuthentic(iw: nat, kw: nat, s: System, r: Role, i: nat)
    requires Reachable(iw, kw, s) && i < |s.Of(r).st.tun|
    ensures exists k :: 0 <= k < |s.seals| && Matches(s, r, i, k)
  {
    ReachableInv(iw, kw, s);
    var h, d := s.Of(r), s.Of(r).st.tun[i];
    assert TrafficInv(h.st.sessions, h.workers, h.st.tun, s.boxes);
    var b := Seal(h.st.sessions[d.sid].rx, Data, d.counter, d.plain);
    var k :| 0 <= k < |s.seals| && s.seals[k].Box() == b;
    var x := s.seals[k];
    assert SealInv(x, s.boxes, Of(x.role, s.iran.st.sessions, s.kharej.st.sessions));
    KeyOfRole(s, r, d.sid);
    KeyOfRole(s, x.role, x.sid);
    assert Matches(s, r, i, k);
  }

  /** ... and no send is written twice, not even across session replacement. */
  lemma DeliveredOnce(iw: nat, kw: nat, s: System, r: Role, i: nat, j: nat, k: nat)
    requires Reachable(iw, kw, s) && i < |s.Of(r).st.tun| && j < |s.Of(r).st.tun| && k < |s.seals|
    requires Matches(s, r, i, k) && Matches(s, r, j, k)
    ensures i == j
  {
    ReachableInv(iw, kw, s);
    var h := s.Of(r);
    var d, e := h.st.tun[i], h.st.tun[j];
    if d.sid != e.sid { DistinctKeys(s, r, d.sid, e.sid); }
    assert TrafficInv(h.st.sessions, h.workers, h.st.tun, s.boxes);
  }

  // ---------------------------------------------------------------------------
  // Handshake agreement

  predicate Mirrored(x: SessionState, y: SessionState)
  {
    x.tx == y.rx && x.rx == y.tx && x.tx.cn == y.tx.cn && x.tx.sn == y.tx.sn
  }

  /** Whatever Iran installed, Kharej derived before, with the keys swapped; and Iran
      installs at most one session for each client nonce. With any number of workers. */
  lemma DerivedAgreement(iw: nat, kw: nat, s: System)
    requires Reachable(iw, kw, s)
    ensures forall i :: i in s.iran.installed ==>
      && i < |s.iran.st.sessions|
      && exists k :: 0 <= k < |s.kharej.st.sessions| && Mirrored(s.iran.st.sessions[i], s.kharej.st.sessions[k])
    ensures forall i, j :: i in s.iran.installed && j in s.iran.installed && i != j ==>
      i < |s.iran.st.sessions| && j < |s.iran.st.sessions| && s.iran.st.sessions[i].tx.cn != s.iran.st.sessions[j].tx.cn
  {
    ReachableInv(iw, kw, s);
    forall i | i in s.iran.installed
      ensures i < |s.iran.st.sessions|
      ensures exists k ::
        0 <= k < |s.kharej.st.sessions| && Mirrored(s.iran.st.sessions[i], s.kharej.st.sessions[k])
    {
      var x := s.iran.st.sessions[i];
      assert HasPair(s.kharej.st.sessions, x.tx.cn, x.tx.sn);
      var k :| 0 <= k < |s.kharej.st.sessions| && s.kharej.st.sessions[k].tx.cn == x.tx.cn
        && s.kharej.st.sessions[k].tx.sn == x.tx.sn;
      KeyOfRole(s, Iran, i);
      KeyOfRole(s, Kharej, k);
    }
  }

  /** Whatever Iran installed, Kharej had installed already, with the keys swapped. */
  ghost predicate Agreement(s: System)
  {
    forall i :: i in s.iran.installed && i < |s.iran.st.sessions| ==>
      exists k :: k in s.kharej.installed && k < |s.kharej.st.sessions|
        && Mirrored(s.iran.st.sessions[i], s.kharej.st.sessions[k])
  }

  ghost predicate InstalledPair(xs: Sessions, installed: set<nat>, cn: Nonce, sn: Nonce)
  {
    exists k :: k in installed && k < |xs| && xs[k].tx.cn == cn && xs[k].tx.sn == sn
  }

  /** With one receive worker, an ack on the wire means the session is installed. */
  ghost predicate SoloInv(xs: Sessions, installed: set<nat>, x: Worker, macs: set<MacInput>)
  {
    && (forall sid :: 0 <= sid < |xs| ==> sid in installed || x == Created(sid))
    && (forall m :: m in macs && m.AckInput? ==> InstalledPair(xs, installed, m.cn, m.sn))
  }

  ghost predicate Solo(s: System)
  {
    |s.kharej.workers| == 1 && SoloInv(s.kharej.st.sessions, s.kharej.installed, s.kharej.workers[0], s.macs)
  }

  lemma SoloFrame(xs: Sessions, ys: Sessions, ins: set<nat>, ins': set<nat>, x: Worker, y: Worker,
      macs: set<MacInput>, macs': set<MacInput>)
    requires SoloInv(xs, ins, x, macs) && ins <= ins'
    requires |xs| <= |ys| && forall i :: 0 <= i < |xs| ==> ys[i].tx == xs[i].tx
    requires forall sid :: 0 <= sid < |ys| ==> sid in ins' || y == Created(sid)
    requires forall m :: m in macs' - macs && m.AckInput? ==> InstalledPair(ys, ins', m.cn, m.sn)
    ensures SoloInv(ys, ins', y, macs')
  {
    forall m | m in macs' && m.AckInput? ensures InstalledPair(ys, ins', m.cn, m.sn) {
      if m in macs {
        assert InstalledPair(xs, ins, m.cn, m.sn);
        var k :| k in ins && k < |xs| && xs[k].tx.cn == m.cn && xs[k].tx.sn == m.sn;
        assert ys[k].tx == xs[k].tx;
      }
    }
  }

  /** While the one worker is idle, every recorded hello has its session installed. */
  lemma SoloAnswers(s: System, cn: Nonce)
    requires Solo(s) && HellosInv(s.kharej.st.sessions, s.kharej.st.hellos, s.kharej.workers)
    requires s.kharej.workers[0].Idle? && cn in s.kharej.st.hellos
    ensures var ack := s.kharej.st.hellos[cn].ack;
      ack.HelloAck? && ack.tag == Mac(AckInput(cn, ack.sn))
        && InstalledPair(s.kharej.st.sessions, s.kharej.installed, cn, ack.sn)
  {
    var xs, sn := s.kharej.st.sessions, s.kharej.st.hellos[cn].ack.sn;
    assert HasPair(xs, cn, sn);
    var k :| 0 <= k < |xs| && xs[k].tx.cn == cn && xs[k].tx.sn == sn;
  }

  lemma SoloTakeHello(s: System, a: Action)
    requires Solo(s) && HellosInv(s.kharej.st.sessions, s.kharej.st.hellos, s.kharej.workers) && a.TakeHello?
      && Enabled(s, a)
    ensures Solo(DoTakeHello(s, a))
  {
    var h, s' := s.kharej, DoTakeHello(s, a);
    var xs := h.st.sessions;
    if a.tag == Mac(HelloInput(a.ts, a.cn)) && Timely(a.clock, a.ts) {
      if a.cn in Purge(h.st.hellos, a.now) {
        SoloAnswers(s, a.cn);
      }
      SoloFrame(xs, s'.kharej.st.sessions, h.installed, h.installed, h.workers[0], s'.kharej.workers[0], s.macs,
        s'.macs);
    }
  }

  lemma SoloStoreHello(s: System, w: nat)
    requires Solo(s) && Enabled(s, StoreHello(w))
    ensures Solo(Apply(s, StoreHello(w)))
  {
    var h, s' := s.kharej, Apply(s, StoreHello(w));
    var sid, xs := h.workers[w].sid, h.st.sessions;
    assert InstalledPair(xs, s'.kharej.installed, xs[sid].tx.cn, xs[sid].tx.sn);
    SoloFrame(xs, xs, h.installed, s'.kharej.installed, h.workers[0], Idle, s.macs, s'.macs);
  }

  /** Other steps leave what Kharej installed, its keys and the acks as they were. */
  ghost predicate Unmoved(h: Protocol.Host, h': Protocol.Host)
  {
    && h'.installed == h.installed && |h'.workers| == |h.workers|
    && (forall w :: 0 <= w < |h.workers| && h.workers[w].Created? ==> h'.workers[w] == h.workers[w])
    && |h'.st.sessions| == |h.st.sessions|
      && (forall i :: 0 <= i < |h.st.sessions| ==> h'.st.sessions[i].tx == h.st.sessions[i].tx)
  }

  lemma OtherSend(s: System, a: Action)
    requires Enabled(s, a) && a.Send?
    ensures Unmoved(s.kharej, Apply(s, a).kharej) && Apply(s, a).macs == s.macs
  {
  }

  lemma OtherReplay(s: System, a: Action)
    requires Enabled(s, a) && a.CheckReplay?
    ensures Unmoved(s.kharej, Apply(s, a).kharej) && Apply(s, a).macs == s.macs
  {
  }

  lemma OtherDelivery(s: System, a: Action)
    requires Enabled(s, a) && a.DeliverPlain?
    ensures Unmoved(s.kharej, Apply(s, a).kharej) && Apply(s, a).macs == s.macs
  {
  }

  lemma OtherTraffic(s: System, a: Action)
    requires Enabled(s, a) && (a.Send? || a.TakeEncrypted? || a.OpenBox? || a.CheckReplay? || a.DeliverPlain?)
    ensures Unmoved(s.kharej, Apply(s, a).kharej) && Apply(s, a).macs == s.macs
  {
    if a.Send? { OtherSend(s, a); } else if a.CheckReplay? { OtherReplay(s, a); }
      else if a.DeliverPlain? { OtherDelivery(s, a); }
  }

  lemma OtherControl(s: System, a: Action)
    requires Enabled(s, a) && !a.TakeHello? && !a.StoreHello?
    requires !a.Send? && !a.TakeEncrypted? && !a.OpenBox? && !a.CheckReplay? && !a.DeliverPlain?
    ensures Unmoved(s.kharej, Apply(s, a).kharej)
    ensures forall m :: m in Apply(s, a).macs && m.AckInput? ==> m in s.macs
  {
  }

  lemma SoloOther(s: System, a: Action)
    requires Solo(s) && Enabled(s, a) && !a.TakeHello? && !a.StoreHello?
    ensures Solo(Apply(s, a))
  {
    if a.Send? || a.TakeEncrypted? || a.OpenBox? || a.CheckReplay? || a.DeliverPlain? {
      OtherTraffic(s, a);
    } else {
      OtherControl(s, a);
    }
    var h, h' := s.kharej, Apply(s, a).kharej;
    SoloFrame(h.st.sessions, h'.st.sessions, h.installed, h'.installed, h.workers[0], h'.workers[0], s.macs,
      Apply(s, a).macs);
  }

  lemma {:induction false} SoloRun(iw: nat, run: seq<Action>)
    ensures Exec(Init(iw, 1), run).Some? ==> Solo(Exec(Init(iw, 1), run).value)
  {
    if run != [] {
      SoloRun(iw, run[..|run| - 1]);
      RunKeeps(iw, 1, run[..|run| - 1]);
      var before := Exec(Init(iw, 1), run[..|run| - 1]);
      if before.Some? && Enabled(before.value, run[|run| - 1]) {
        SoloStep(before.value, run[|run| - 1]);
      }
    }
  }

  lemma SoloStep(s: System, a: Action)
    requires Solo(s) && Inv(s) && Enabled(s, a)
    ensures Solo(Apply(s, a))
  {
    if a.TakeHello? {
      SoloTakeHello(s, a);
    } else if a.StoreHello? {
      SoloStoreHello(s, a.w);
    } else {
      SoloOther(s, a);
    }
  }

  lemma SoloAgreement(iw: nat, s: System)
    requires Reachable(iw, 1, s)
    ensures Agreement(s)
  {
    ReachableInv(iw, 1, s);
    var run :| Exec(Init(iw, 1), run) == Some(s);
    SoloRun(iw, run);
    forall i | i in s.iran.installed && i < |s.iran.st.sessions|
      ensures exists k ::
        && k in s.kharej.installed && k < |s.kharej.st.sessions|
        && Mirrored(s.iran.st.sessions[i], s.kharej.st.sessions[k])
    {
      var x := s.iran.st.sessions[i];
      assert AckInput(x.tx.cn, x.tx.sn) in s.macs;
      assert InstalledPair(s.kharej.st.sessions, s.kharej.installed, x.tx.cn, x.tx.sn);
      var k :| k in s.kharej.installed && k < |s.kharej.st.sessions| && s.kharej.st.sessions[k].tx.cn == x.tx.cn
        && s.kharej.st.sessions[k].tx.sn == x.tx.sn;
      KeyOfRole(s, Iran, i);
      KeyOfRole(s, Kharej, k);
    }
  }

  /** Iran's hello is out, and Kharej's first worker has recorded it but not yet stored
      the session. */
  ghost predicate HelloRecorded(s: System, iw: nat, kw: nat)
  {
    && |s.iran.workers| == iw && |s.kharej.workers| == kw
    && (iw >= 1 ==> s.iran.workers[0].Idle?) && (kw >= 2 ==> s.kharej.workers[1].Idle?)
    && s.iran.st.pendingSet && s.iran.st.pending == 0 && s.kharej.installed == {}
    && s.kharej.st.hellos == map[0 := HelloRecord(120 * SECOND, MakeHelloAck(0, 1))]
    && HelloInput(0, 0) in s.macs && s.used == {0, 1} && s.iran.st.sessions == []
    && (kw >= 1 ==> s.kharej.workers[0] == Created(0))
    && |s.kharej.st.sessions| == 1 && s.kharej.st.sessions[0].tx.cn == 0 && s.kharej.st.sessions[0].tx.sn == 1
  }

  lemma HelloArrives(iw: nat, kw: nat) returns (run: seq<Action>, s: System)
    requires iw >= 1 && kw >= 1
    ensures Exec(Init(iw, kw), run) == Some(s) && HelloRecorded(s, iw, kw)
  {
    var s0 := Init(iw, kw);
    var a1 := StartHandshake(0, 0);
    ExecSnoc(s0, [], a1);
    var s1 := Apply(s0, a1);
    var a2 := TakeHello(0, "", 0, 0, Mac(HelloInput(0, 0)), 0, 0, 1);
    ExecSnoc(s0, [a1], a2);
    run, s := [a1] + [a2], Apply(s1, a2);
    assert s.kharej.st.hellos == map[0 := HelloRecord(120 * SECOND, MakeHelloAck(0, 1))];
    assert s.used == {0, 1};
  }

  /** Two workers on Kharej race: one has recorded the hello but not yet stored the
      session when the other answers a copy of it, and Iran installs first. */
  lemma RacingWorkers(iw: nat, kw: nat) returns (s: System)
    requires iw >= 1 && kw >= 2
    ensures Reachable(iw, kw, s)
    ensures !Agreement(s)
  {
    var run, s2 := HelloArrives(iw, kw);
    var a3 := TakeHello(1, "", 0, 0, Mac(HelloInput(0, 0)), 0, 0, 2);
    assert 0 in Purge(s2.kharej.st.hellos, 0);
    var s3 := Apply(s2, a3);
    ExecSnoc(Init(iw, kw), run, a3);
    assert AckInput(0, 1) in s3.macs;
    s := Overtake(Init(iw, kw), run + [a3], s3, Mac(AckInput(0, 1)));
  }

  lemma Overtake(s0: System, run: seq<Action>, s3: System, ack: Tag) returns (s: System)
    requires Exec(s0, run) == Some(s3)
    requires |s3.iran.workers| >= 1 && s3.iran.workers[0].Idle? && ack == Mac(AckInput(0, 1))
      && AckInput(0, 1) in s3.macs
    requires s3.iran.st.pendingSet && s3.iran.st.pending == 0 && s3.kharej.installed == {}
    ensures exists run' :: Exec(s0, run') == Some(s)
    ensures !Agreement(s)
  {
    var a4 := TakeAck(0, "", 0, 1, ack);
    var s4 := Apply(s3, a4);
    ExecSnoc(s0, run, a4);
    var a5 := StoreAck(0, 0);
    s := Apply(s4, a5);
    ExecSnoc(s0, run + [a4], a5);
    assert |s3.iran.st.sessions| in s.iran.installed && s.kharej.installed == {};
  }

  /** The server-first order is guaranteed exactly when Kharej runs a single receive worker. */
  lemma AgreementIffOneWorker(iw: nat, kw: nat)
    requires iw >= 1 && kw >= 1
    ensures (forall s :: Reachable(iw, kw, s) ==> Agreement(s)) <==> kw == 1
  {
    if kw == 1 {
      forall s | Reachable(iw, kw, s) ensures Agreement(s) { SoloAgreement(iw, s); }
    } else {
      var s := RacingWorkers(iw, kw);
    }
  }

  // ---------------------------------------------------------------------------
  // Probes

  lemma {:induction false} RoundStarted(iw: nat, kw: nat, run: seq<Action>, p: ProbeNonce) returns (k: nat)
    requires Exec(Init(iw, kw), run).Some? && p in Exec(Init(iw, kw), run).value.probes
    ensures k < |run| && run[k].StartProbe? && run[k].probe == p
    ensures Exec(Init(iw, kw), run[..k]).Some? && p !in Exec(Init(iw, kw), run[..k]).value.probes
  {
    var front := run[..|run| - 1];
    if p in Exec(Init(iw, kw), front).value.probes {
      k := RoundStarted(iw, kw, front, p);
      assert front[..k] == run[..k];
    } else {
      k := |run| - 1;
    }
  }

  lemma {:induction false} Responded(iw: nat, kw: nat, run: seq<Action>, p: ProbeNonce) returns (m: nat)
    requires Exec(Init(iw, kw), run).Some? && p in Exec(Init(iw, kw), run).value.responses
    ensures m < |run| && run[m].Respond? && run[m].probe == p
    ensures Exec(Init(iw, kw), run[..m]).Some? && Enabled(Exec(Init(iw, kw), run[..m]).value, run[m])
  {
    var front := run[..|run| - 1];
    if p in Exec(Init(iw, kw), front).value.responses {
      m := Responded(iw, kw, front, p);
      assert front[..m] == run[..m];
    } else {
      m := |run| - 1;
    }
  }

  /** Step `k` began the round of probe `p`, which nobody had answered before, and step
      `m` after it is Iran's responder verifying that probe and acknowledging it inside
      a session. */
  ghost predicate AnsweredInRound(iw: nat, kw: nat, run: seq<Action>, p: ProbeNonce, k: nat, m: nat)
  {
    && k < m < |run|
    && run[k].StartProbe? && run[k].probe == p
    && run[m].Respond? && run[m].probe == p
    && Exec(Init(iw, kw), run[..k]).Some? && p !in Exec(Init(iw, kw), run[..k]).value.responses
  }

  /** The monitor records a success for a round only if Iran's responder verified that
      same round's probe and acknowledged it, after the round began: stale and foreign
      acks left in the channel never count. */
  lemma ProbeSoundness(iw: nat, kw: nat, run: seq<Action>, i: nat)
    requires Exec(Init(iw, kw), run).Some? && i < |Exec(Init(iw, kw), run).value.results|
    requires Exec(Init(iw, kw), run).value.results[i].1
    ensures exists k, m :: AnsweredInRound(iw, kw, run, Exec(Init(iw, kw), run).value.results[i].0, k, m)
  {
    var p := Exec(Init(iw, kw), run).value.results[i].0;
    RunKeeps(iw, kw, run);
    var m := Responded(iw, kw, run, p);
    RunKeeps(iw, kw, run[..m]);
    var k := RoundStarted(iw, kw, run[..m], p);
    assert run[..m][..k] == run[..k];
    RunKeeps(iw, kw, run[..k]);
    assert AnsweredInRound(iw, kw, run, p, k, m);
  }
}
