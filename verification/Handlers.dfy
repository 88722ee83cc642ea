/** The transition system cuts the handlers where another goroutine can come in between.
    Run without interruption, the pieces are the handlers: what TunnelState's methods do. */
module Handlers {
  import opened Words
  import opened Messages
  import opened Replay
  import opened Endpoint
  import opened Protocol

  /** Host `r` after the run is in state `st`, with all workers where they were. */
  ghost predicate EndsIn(s: System, run: seq<Action>, r: Role, st: State)
  {
    && Exec(s, run).Some?
    && Exec(s, run).value.Of(r).st == st && Exec(s, run).value.Of(r).workers == s.Of(r).workers
  }

  /** Nothing but host `r` differs. */
  predicate Elsewhere(s: System, s': System, r: Role)
  {
    s' == s.With(r, s'.Of(r))
  }

  lemma EncryptedInSteps(s: System, r: Role, w: nat, peer: Peer, kind: Kind, counter: uint64, box: Box, now: int)
    returns (run: seq<Action>)
    requires Enabled(s, TakeEncrypted(r, w, peer, kind, counter, box))
    ensures EndsIn(s, run, r, HandleEncrypted(s.Of(r).st, peer, kind, counter, box, now))
    ensures Elsewhere(s, Exec(s, run).value, r)
  {
    var a1 := TakeEncrypted(r, w, peer, kind, counter, box);
    run := [] + [a1];
    ExecSnoc(s, [], a1);
    if Gate(s.Of(r).st, peer).Some? {
      var s1 := Taken(s, a1);
      run := OpenInSteps(s, run, s1, r, w, now);
    }
  }

  lemma Taken(s: System, a: Action) returns (s1: System)
    requires a.TakeEncrypted? && Enabled(s, a) && Gate(s.Of(a.role).st, a.peer).Some?
    ensures s1 == Apply(s, a) && s1.Of(a.role).st == s.Of(a.role).st && Enabled(s1, OpenBox(a.role, a.w))
    ensures s1.Of(a.role).workers[a.w] == Loaded(Gate(s.Of(a.role).st, a.peer).value, a.kind, a.counter, a.box)
    ensures s1.Of(a.role).workers[a.w := Worker.Idle] == s.Of(a.role).workers && Elsewhere(s, s1, a.role)
  {
    s1 := Apply(s, a);
  }

  lemma OpenInSteps(s: System, before: seq<Action>, s1: System, r: Role, w: nat, now: int) returns (run: seq<Action>)
    requires Exec(s, before) == Some(s1) && Enabled(s1, OpenBox(r, w))
    ensures Exec(s, run).Some? && Elsewhere(s1, Exec(s, run).value, r)
    ensures var h, h' := s1.Of(r), Exec(s, run).value.Of(r);
      var x := h.workers[w];
      h'.workers == h.workers[w := Worker.Idle] && h'.st == OpenAndDeliver(h.st, x.sid, x.kind, x.counter, x.box, now)
  {
    var a2 := OpenBox(r, w);
    ExecSnoc(s, before, a2);
    var s2 := Apply(s1, a2);
    run := before + [a2];
    if s2.Of(r).workers[w].Idle? { return; }
    run := CheckInSteps(s, run, s2, r, w, now);
    assert s2.Of(r).workers[w := Worker.Idle] == s1.Of(r).workers[w := Worker.Idle];
  }

  lemma CheckInSteps(s: System, before: seq<Action>, s2: System, r: Role, w: nat, now: int) returns (run: seq<Action>)
    requires Exec(s, before) == Some(s2) && Enabled(s2, CheckReplay(r, w))
    ensures Exec(s, run).Some? && Elsewhere(s2, Exec(s, run).value, r)
    ensures var h, h' := s2.Of(r), Exec(s, run).value.Of(r);
      var x := h.workers[w];
      && h'.workers == h.workers[w := Worker.Idle]
      && h'.st == if Admits(h.st.sessions[x.sid].accepted, x.counter)
                  then Deliver(AcceptCounter(h.st, x.sid, x.counter), x.sid, x.kind, x.counter, x.plain, now)
                  else CountReplayDrop(h.st)
  {
    var a3 := CheckReplay(r, w);
    ExecSnoc(s, before, a3);
    var s3 := Apply(s2, a3);
    run := before + [a3];
    if s3.Of(r).workers[w].Idle? { return; }
    var a4 := DeliverPlain(r, w, now);
    ExecSnoc(s, run, a4);
    run := run + [a4];
  }

  lemma HelloInSteps(s: System, a: Action) returns (run: seq<Action>)
    requires a.TakeHello? && Enabled(s, a)
    ensures EndsIn(s, run, Kharej, HandleHello(s.kharej.st, a.peer, a.ts, a.cn, a.tag, a.clock, a.now, a.sn).0)
  {
    run := [] + [a];
    ExecSnoc(s, [], a);
    var s1 := Apply(s, a);
    if s1.kharej.workers[a.w].Created? {
      ExecSnoc(s, run, StoreHello(a.w));
      run := run + [StoreHello(a.w)];
      assert s1.kharej.workers[a.w := Worker.Idle] == s.kharej.workers;
    }
  }

  lemma AckInSteps(s: System, a: Action, now: int) returns (run: seq<Action>)
    requires a.TakeAck? && Enabled(s, a)
    ensures EndsIn(s, run, Iran, HandleHelloAck(s.iran.st, a.peer, a.cn, a.sn, a.tag, now))
  {
    run := [] + [a];
    ExecSnoc(s, [], a);
    var s1 := Apply(s, a);
    if s1.iran.workers[a.w].Consumed? {
      ExecSnoc(s, run, StoreAck(a.w, now));
      run := run + [StoreAck(a.w, now)];
      assert s1.iran.workers[a.w := Worker.Idle] == s.iran.workers;
    }
  }
}
