/** The traffic books balance modulo 2^64 over every run, across rekeys. */
module Accounting {
  import opened Words
  import opened Messages
  import opened Replay
  import opened Endpoint
  import opened Protocol

  function SumTx(xs: seq<SessionState>): nat
  {
    if xs == [] then 0 else SumTx(xs[..|xs| - 1]) + xs[|xs| - 1].txBytes
  }

  function SumRx(xs: seq<SessionState>): nat
  {
    if xs == [] then 0 else SumRx(xs[..|xs| - 1]) + xs[|xs| - 1].rxBytes
  }

  /** Workers that hold a gated datagram whose fate is not yet counted. */
  function InFlight(ws: seq<Worker>): nat
  {
    if ws == [] then 0 else
      InFlight(ws[..|ws| - 1]) + (if ws[|ws| - 1].Loaded? || ws[|ws| - 1].Opened? || ws[|ws| - 1].Passed? then 1 else 0)
  }

  predicate Off(a: int, b: int, k: int)
  {
    a == b + k * U64
  }

  /** Equal modulo 2^64. */
  ghost predicate Congruent(a: int, b: int)
  {
    exists k :: Off(a, b, k)
  }

  /** Adding the same amount on both sides, each with its own wrap-around. */
  lemma AddBoth(a: int, b: int, x: uint64, y: uint64, l: uint64)
    requires Congruent(a, b)
    ensures Congruent(a - x + Add(x, l), b - y + Add(y, l))
  {
    var k :| Off(a, b, k);
    var i, j := if x + l < U64 then 0 else 1, if y + l < U64 then 0 else 1;
    assert Off(a - x + Add(x, l), b - y + Add(y, l), k - i + j);
  }

  lemma AddRight(a: int, b: int, y: uint64)
    requires Congruent(a, b)
    ensures Congruent(a + 1, b - y + Add(y, 1))
  {
    var k :| Off(a, b, k);
    assert Off(a + 1, b - y + Add(y, 1), if y + 1 < U64 then k else k + 1);
  }

  /** A worker lets go of its datagram and the counter that saw it moves up. */
  lemma Settle(a: int, b: int, y: uint64)
    requires Congruent(a, b)
    ensures Congruent(a, b - y + Add(y, 1) - 1)
  {
    var k :| Off(a, b, k);
    assert Off(a, b - y + Add(y, 1) - 1, if y + 1 < U64 then k else k + 1);
  }

  lemma Zeros(a: int, b: int)
    requires a == 0 && b == 0
    ensures Congruent(a, b)
  {
    assert Off(a, b, 0);
  }

  lemma PlusOne(a: int, b: int)
    requires Congruent(a, b)
    ensures Congruent(a + 1, b + 1)
  {
    var k :| Off(a, b, k);
    assert Off(a + 1, b + 1, k);
  }

  /** Bytes: summed over all sessions ever derived, as in the global metrics. */
  ghost predicate TxBalance(st: State)
  {
    Congruent(SumTx(st.sessions), st.metrics.dataTxBytes + st.metrics.controlTxBytes)
  }

  ghost predicate RxBalance(st: State)
  {
    Congruent(SumRx(st.sessions), st.metrics.dataRxBytes + st.metrics.controlRxBytes)
  }

  /** Every send succeeded or is counted as an error. */
  ghost predicate SendBalance(m: Metrics, sends: nat)
  {
    Congruent(sends, m.dataTxPackets + m.controlTxPkts + m.sendErrors)
  }

  /** Every gated datagram is in flight or lands in exactly one of the four receive counters. */
  ghost predicate GateBalance(m: Metrics, gated: nat, inFlight: nat)
  {
    Congruent(gated, m.decryptErrors + m.replayDrops + m.dataRxPackets + m.controlRxPkts + inFlight)
  }

  ghost predicate Balanced(h: Host)
  {
    && TxBalance(h.st) && RxBalance(h.st)
    && SendBalance(h.st.metrics, h.sends)
    && GateBalance(h.st.metrics, h.gated, InFlight(h.workers))
  }

  /** The books of `h'` show the same totals as those of `h`. */
  predicate SameBooks(h: Host, h': Host)
  {
    && SumTx(h'.st.sessions) == SumTx(h.st.sessions) && SumRx(h'.st.sessions) == SumRx(h.st.sessions)
    && h'.st.metrics == h.st.metrics && h'.sends == h.sends && h'.gated == h.gated
      && InFlight(h'.workers) == InFlight(h.workers)
  }

  lemma BooksStay(h: Host, h': Host)
    requires Balanced(h) && SameBooks(h, h')
    ensures Balanced(h')
  {
    assert TxBalance(h'.st) == TxBalance(h.st) && RxBalance(h'.st) == RxBalance(h.st);
  }

  lemma {:induction false} SumUpdate(xs: seq<SessionState>, i: nat, x: SessionState)
    requires i < |xs|
    ensures SumTx(xs[i := x]) == SumTx(xs) - xs[i].txBytes + x.txBytes
    ensures SumRx(xs[i := x]) == SumRx(xs) - xs[i].rxBytes + x.rxBytes
  {
    var ys, n := xs[i := x], |xs| - 1;
    if i < n {
      SumUpdate(xs[..n], i, x);
      assert ys[..n] == xs[..n][i := x];
    } else {
      assert ys[..n] == xs[..n];
    }
  }

  lemma SumAppend(xs: seq<SessionState>, x: SessionState)
    ensures SumTx(xs + [x]) == SumTx(xs) + x.txBytes
    ensures SumRx(xs + [x]) == SumRx(xs) + x.rxBytes
  {
    assert (xs + [x])[..|xs|] == xs;
  }

  lemma {:induction false} InFlightUpdate(ws: seq<Worker>, i: nat, x: Worker)
    requires i < |ws|
    ensures InFlight(ws[i := x]) == InFlight(ws) - InFlight([ws[i]]) + InFlight([x])
  {
    var us, n := ws[i := x], |ws| - 1;
    assert [ws[i]][..0] == [] && [x][..0] == [];
    if i < n {
      InFlightUpdate(ws[..n], i, x);
      assert us[..n] == ws[..n][i := x];
    } else {
      assert us[..n] == ws[..n];
    }
  }

  lemma {:induction false} AllIdle(ws: seq<Worker>)
    requires forall i :: 0 <= i < |ws| ==> ws[i].Idle?
    ensures InFlight(ws) == 0
  {
    if ws != [] { AllIdle(ws[..|ws| - 1]); }
  }

  lemma CountTxBalances(m: Metrics, kind: Kind, len: uint64, ok: bool, sends: nat)
    requires SendBalance(m, sends)
    ensures var m' := CountTx(m, kind, len, ok);
      && SendBalance(m', sends + 1)
      && m'.decryptErrors == m.decryptErrors && m'.replayDrops == m.replayDrops
      && m'.dataRxPackets == m.dataRxPackets && m'.controlRxPkts == m.controlRxPkts
  {
    AddRight(sends, m.dataTxPackets + m.controlTxPkts + m.sendErrors,
             if !ok then m.sendErrors else if kind.Data? then m.dataTxPackets else m.controlTxPkts);
  }

  lemma CountSendBalances(st: State, sid: nat, kind: Kind, plain: Bytes, ok: bool)
    requires TxBalance(st) && RxBalance(st) && sid < |st.sessions|
    ensures var st' := CountSend(st, sid, kind, plain, ok); TxBalance(st') && RxBalance(st')
  {
    if ok {
      var m, l, st' := st.metrics, Len(plain), CountSend(st, sid, kind, plain, ok);
      SumUpdate(st.sessions, sid, st'.sessions[sid]);
      AddBoth(SumTx(st.sessions), m.dataTxBytes + m.controlTxBytes, st.sessions[sid].txBytes,
              if kind.Data? then m.dataTxBytes else m.controlTxBytes, l);
    }
  }

  lemma SendBalances(h: Host, sid: nat, kind: Kind, plain: Bytes, ok: bool)
    requires Balanced(h) && sid < |h.st.sessions|
    ensures Balanced(h.(st := SendEncrypted(h.st, sid, kind, plain, ok).0, sends := h.sends + 1))
  {
    var st1 := TakeCounter(h.st, sid);
    SumUpdate(h.st.sessions, sid, st1.sessions[sid]);
    CountTxBalances(h.st.metrics, kind, Len(plain), ok, h.sends);
    CountSendBalances(st1, sid, kind, plain, ok);
  }

  lemma DeliverBalances(h: Host, w: nat, now: int)
    requires Balanced(h) && w < |h.workers| && h.workers[w].Passed? && h.workers[w].sid < |h.st.sessions|
    ensures var x := h.workers[w];
      Balanced(SetWorker(h, w, Idle).(st := Deliver(h.st, x.sid, x.kind, x.counter, x.plain, now)))
  {
    var m, x := h.st.metrics, h.workers[w];
    var s := h.st.sessions[x.sid];
    var st' := Deliver(h.st, x.sid, x.kind, x.counter, x.plain, now);
    SumUpdate(h.st.sessions, x.sid, st'.sessions[x.sid]);
    AddBoth(SumRx(h.st.sessions), m.dataRxBytes + m.controlRxBytes, s.rxBytes,
            if x.kind.Data? then m.dataRxBytes else m.controlRxBytes, Len(x.plain));
    WorkerBalances(h, w, Idle);
    Settle(h.gated, m.decryptErrors + m.replayDrops + m.dataRxPackets + m.controlRxPkts + InFlight(h.workers),
           if x.kind.Data? then m.dataRxPackets else m.controlRxPkts);
  }

  lemma WorkerBalances(h: Host, w: nat, x: Worker)
    requires w < |h.workers|
    ensures InFlight(SetWorker(h, w, x).workers) == InFlight(h.workers) - InFlight([h.workers[w]]) + InFlight([x])
    ensures InFlight([x]) == if x.Loaded? || x.Opened? || x.Passed? then 1 else 0
    ensures InFlight([h.workers[w]]) == if h.workers[w].Loaded? || h.workers[w].Opened?
      || h.workers[w].Passed? then 1 else 0
  {
    InFlightUpdate(h.workers, w, x);
    assert [h.workers[w]][..0] == [] && [x][..0] == [];
  }

  lemma TakeBalances(h: Host, w: nat, x: Worker)
    requires Balanced(h) && w < |h.workers| && h.workers[w].Idle? && x.Loaded?
    ensures Balanced(SetWorker(h, w, x).(gated := h.gated + 1))
  {
    var m := h.st.metrics;
    WorkerBalances(h, w, x);
    PlusOne(h.gated, m.decryptErrors + m.replayDrops + m.dataRxPackets + m.controlRxPkts + InFlight(h.workers));
  }

  /** A worker keeps its datagram for the next step, or moves between states that hold none. */
  lemma CarryBalances(h: Host, w: nat, x: Worker)
    requires Balanced(h) && w < |h.workers|
    requires (x.Loaded? || x.Opened? || x.Passed?)
      == (h.workers[w].Loaded? || h.workers[w].Opened? || h.workers[w].Passed?)
    ensures Balanced(SetWorker(h, w, x))
  {
    WorkerBalances(h, w, x);
    BooksStay(h, SetWorker(h, w, x));
  }

  lemma DropBalances(h: Host, w: nat, decrypt: bool)
    requires Balanced(h) && w < |h.workers| && (h.workers[w].Loaded? || h.workers[w].Opened?)
    ensures Balanced(SetWorker(h, w, Idle).(st := if decrypt then CountDecryptError(h.st) else CountReplayDrop(h.st)))
  {
    var m := h.st.metrics;
    WorkerBalances(h, w, Idle);
    Settle(h.gated, m.decryptErrors + m.replayDrops + m.dataRxPackets + m.controlRxPkts + InFlight(h.workers),
           if decrypt then m.decryptErrors else m.replayDrops);
  }

  lemma AcceptBalances(h: Host, w: nat)
    requires Balanced(h) && w < |h.workers| && h.workers[w].Opened? && h.workers[w].sid < |h.st.sessions|
    ensures var x := h.workers[w];
      Balanced(SetWorker(h, w, Passed(x.sid, x.kind, x.counter, x.plain)).(st := AcceptCounter(h.st, x.sid, x.counter)))
  {
    var x := h.workers[w];
    var st' := AcceptCounter(h.st, x.sid, x.counter);
    var y := Passed(x.sid, x.kind, x.counter, x.plain);
    SumUpdate(h.st.sessions, x.sid, st'.sessions[x.sid]);
    WorkerBalances(h, w, y);
    BooksStay(h, SetWorker(h, w, y).(st := st'));
  }

  ghost predicate BothBalanced(s: System)
  {
    Balanced(s.iran) && Balanced(s.kharej)
  }

  lemma OneBalances(s: System, r: Role, h: Host)
    requires BothBalanced(s) && Balanced(h)
    ensures BothBalanced(s.With(r, h))
  {
  }

  lemma OpenBalances(s: System, r: Role, w: nat)
    requires BothBalanced(s) && Enabled(s, OpenBox(r, w))
    ensures BothBalanced(Apply(s, OpenBox(r, w)))
  {
    var h := Apply(s, OpenBox(r, w)).Of(r);
    var x' := h.workers[w];
    if x'.Idle? { DropBalances(s.Of(r), w, true); } else { CarryBalances(s.Of(r), w, x'); }
    OneBalances(s, r, h);
  }

  lemma CheckBalances(s: System, r: Role, w: nat)
    requires BothBalanced(s) && Enabled(s, CheckReplay(r, w))
    ensures BothBalanced(Apply(s, CheckReplay(r, w)))
  {
    var h := s.Of(r);
    if Admits(h.st.sessions[h.workers[w].sid].accepted, h.workers[w].counter) { AcceptBalances(h, w); }
      else { DropBalances(h, w, false); }
    OneBalances(s, r, Apply(s, CheckReplay(r, w)).Of(r));
  }

  lemma TakeEncryptedBalances(s: System, a: Action)
    requires BothBalanced(s) && a.TakeEncrypted? && Enabled(s, a)
    ensures BothBalanced(Apply(s, a))
  {
    var h := Apply(s, a).Of(a.role);
    if h.workers[a.w].Loaded? {
      TakeBalances(s.Of(a.role), a.w, h.workers[a.w]);
      OneBalances(s, a.role, h);
    }
  }

  lemma TrafficBalances(s: System, a: Action)
    requires BothBalanced(s) && Enabled(s, a)
    requires a.TakeEncrypted? || a.OpenBox? || a.CheckReplay?
    ensures BothBalanced(Apply(s, a))
  {
    match a {
      case TakeEncrypted(_, _, _, _, _, _) => TakeEncryptedBalances(s, a);
      case OpenBox(r, w) => OpenBalances(s, r, w);
      case CheckReplay(r, w) => CheckBalances(s, r, w);
    }
  }

  /** A new session and a worker that holds it add nothing to the books. */
  lemma RecordBooks(h: Host, w: nat, cn: Nonce, sn: Nonce, peer: Peer, now: int)
    requires w < |h.workers| && h.workers[w].Idle?
    ensures SameBooks(h, SetWorker(h, w,
      Created(|h.st.sessions|)).(st := RecordHello(PurgeHellos(h.st, now), cn, sn, peer, now)))
  {
    SumAppend(h.st.sessions, Derive(Kharej, cn, sn, peer, now));
    WorkerBalances(h, w, Created(|h.st.sessions|));
  }

  lemma TakeHelloBooks(s: System, a: Action)
    requires a.TakeHello? && Enabled(s, a)
    ensures DoTakeHello(s, a).iran == s.iran && SameBooks(s.kharej, DoTakeHello(s, a).kharej)
  {
    RecordBooks(s.kharej, a.w, a.cn, a.sn, a.peer, a.now);
  }

  lemma TakeHelloBalances(s: System, a: Action)
    requires BothBalanced(s) && a.TakeHello? && Enabled(s, a)
    ensures BothBalanced(DoTakeHello(s, a))
  {
    TakeHelloBooks(s, a);
    BooksStay(s.kharej, DoTakeHello(s, a).kharej);
  }

  lemma HandshakeBalances(s: System, a: Action)
    requires BothBalanced(s) && Enabled(s, a)
    requires a.TakeHello? || a.StoreHello? || a.TakeAck? || a.StoreAck?
    ensures BothBalanced(Apply(s, a))
  {
    match a {
      case TakeHello(_, _, _, _, _, _, _, _) => TakeHelloBalances(s, a);
      case StoreHello(w) => CarryBalances(s.kharej, w, Idle);
      case TakeAck(w, peer, cn, sn, tag) => CarryBalances(s.iran, w, Consumed(cn, sn, peer));
      case StoreAck(w, now) => StoreAckBalances(s, w, now);
    }
  }

  lemma StoreAckBalances(s: System, w: nat, now: int)
    requires BothBalanced(s) && Enabled(s, StoreAck(w, now))
    ensures BothBalanced(Apply(s, StoreAck(w, now)))
  {
    var c := s.iran.workers[w];
    SumAppend(s.iran.st.sessions, Derive(Iran, c.cn, c.sn, c.peer, now));
    WorkerBalances(s.iran, w, Idle);
    BooksStay(s.iran, Apply(s, StoreAck(w, now)).iran);
  }

  lemma TransferBalances(s: System, a: Action)
    requires BothBalanced(s) && Enabled(s, a)
    requires a.Send? || a.Respond? || a.DeliverPlain?
    ensures BothBalanced(Apply(s, a))
  {
    match a {
      case Send(r, sid, kind, plain, ok) => DoSendBalances(s, r, sid, kind, plain, ok);
      case Respond(sid, _, probe, _, _, ok) => DoSendBalances(s, Iran, sid, DirectProbeAck, probe, ok);
      case DeliverPlain(r, w, now) => DoDeliverBalances(s, r, w, now);
    }
  }

  lemma DoSendBalances(s: System, r: Role, sid: nat, kind: Kind, plain: Bytes, ok: bool)
    requires BothBalanced(s) && sid < |s.Of(r).st.sessions|
    ensures var s' := DoSend(s, r, sid, kind, plain, ok); BothBalanced(s')
  {
    SendBalances(s.Of(r), sid, kind, plain, ok);
  }

  lemma DoDeliverBalances(s: System, r: Role, w: nat, now: int)
    requires BothBalanced(s) && Enabled(s, DeliverPlain(r, w, now))
    ensures var s' := Apply(s, DeliverPlain(r, w, now)); BothBalanced(s')
  {
    DeliverBalances(s.Of(r), w, now);
  }

  lemma QuietBalances(s: System, a: Action)
    requires BothBalanced(s) && Enabled(s, a)
    requires a.StartHandshake? || a.StopHandshake? || a.Expire? || a.StartProbe? || a.AwaitAck? || a.GiveUp?
    ensures BothBalanced(Apply(s, a))
  {
    BooksStay(s.iran, Apply(s, a).iran);
    BooksStay(s.kharej, Apply(s, a).kharej);
  }

  /** Every step keeps the books of both hosts balanced. */
  lemma StepBalances(s: System, a: Action)
    requires BothBalanced(s) && Enabled(s, a)
    ensures BothBalanced(Apply(s, a))
  {
    if a.Send? || a.Respond? || a.DeliverPlain? {
      TransferBalances(s, a);
    } else if a.TakeEncrypted? || a.OpenBox? || a.CheckReplay? {
      TrafficBalances(s, a);
    } else if a.TakeHello? || a.StoreHello? || a.TakeAck? || a.StoreAck? {
      HandshakeBalances(s, a);
    } else {
      QuietBalances(s, a);
    }
  }

  lemma NewHostBalances(workers: nat)
    ensures Balanced(NewHost(workers))
  {
    var h := NewHost(workers);
    AllIdle(h.workers);
    var m := h.st.metrics;
    Zeros(SumTx(h.st.sessions), m.dataTxBytes + m.controlTxBytes);
    Zeros(SumRx(h.st.sessions), m.dataRxBytes + m.controlRxBytes);
    Zeros(h.sends, m.dataTxPackets + m.controlTxPkts + m.sendErrors);
    Zeros(h.gated, m.decryptErrors + m.replayDrops + m.dataRxPackets + m.controlRxPkts + InFlight(h.workers));
  }

  /** Conservation in every reachable state, on both hosts. */
  lemma {:induction false} BooksBalance(iw: nat, kw: nat, run: seq<Action>)
    ensures var r := Exec(Init(iw, kw), run);
      r.Some? ==> BothBalanced(r.value)
  {
    if run == [] {
      NewHostBalances(iw);
      NewHostBalances(kw);
    } else {
      BooksBalance(iw, kw, run[..|run| - 1]);
      var before := Exec(Init(iw, kw), run[..|run| - 1]);
      if before.Some? && Enabled(before.value, run[|run| - 1]) {
        StepBalances(before.value, run[|run| - 1]);
      }
    }
  }
}
