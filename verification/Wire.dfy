/** The bytes on the wire: hello, ack, probe, encrypted packet, and everything that is
    ever fed to HMAC under the pre-shared key. The MAC itself is any function `mac` to
    32 bytes. */
module Wire {
  import opened Words
  import opened Messages

  // ---------------------------------------------------------------------------
  // Big-endian integers

  function Pow256(n: nat): (r: nat)
    ensures r > 0
  {
    if n == 0 then 1 else 256 * Pow256(n - 1)
  }

  function Put(v: nat, n: nat): (r: Bytes)
    ensures |r| == n
  {
    if n == 0 then [] else Put(v / 256, n - 1) + [v % 256]
  }

  function Get(b: Bytes): nat
  {
    if b == [] then 0 else 256 * Get(b[..|b| - 1]) + b[|b| - 1]
  }

  lemma {:induction false} GetPut(v: nat, n: nat)
    requires v < Pow256(n)
    ensures Get(Put(v, n)) == v
  {
    if n > 0 {
      GetPut(v / 256, n - 1);
      var b := Put(v, n);
      assert b[..n - 1] == Put(v / 256, n - 1);
    }
  }

  lemma {:induction false} PutGet(b: Bytes)
    ensures Put(Get(b), |b|) == b && Get(b) < Pow256(|b|)
  {
    if b != [] {
      var front, last := b[..|b| - 1], b[|b| - 1];
      PutGet(front);
      assert Get(b) / 256 == Get(front) && Get(b) % 256 == last;
      assert b == front + [last];
    }
  }

  lemma Pow256Of8()
    ensures Pow256(8) == U64
  {
    assert Pow256(4) == 0x1_0000_0000 by { assert Pow256(2) == 0x1_0000; }
    assert Pow256(6) == 0x1_0000_0000_0000;
  }

  /** `uint64(ts)` and `int64(u)` */
  type int64 = x: int | -(U64 as int) / 2 <= x < U64 as int / 2

  function ToUint64(x: int64): uint64
  {
    if x >= 0 then x else x + U64
  }

  function ToInt64(u: uint64): int64
  {
    if u < U64 / 2 then u else u - U64
  }

  // ---------------------------------------------------------------------------
  // HMAC inputs

  type Random32 = b: Bytes | |b| == 32 witness seq(32, i => 0)

  const MAGIC: Bytes := [72, 83, 72, 49]          // "HSH1"
  const PROBE_MAGIC: Bytes := [72, 68, 80, 49]    // "HDP1"
  const KEY_LABEL: Bytes :=   // "hashshashin/v1/"
    [104, 97, 115, 104, 115, 104, 97, 115, 104, 105, 110, 47, 118, 49, 47]

  function Label(dir: Direction): Bytes
  {
    if dir.C2S? then [99, 50, 115] else [115, 50, 99]
  }

  /** What a MAC under the pre-shared key can be for. */
  datatype Purpose =
    | ForHello(ts: int64, cn: Random32)
    | ForAck(cn: Random32, sn: Random32)
    | ForProbe(ts: int64, nonce: ProbeNonce)
    | ForKey(dir: Direction, cn: Random32, sn: Random32)

  function Input(p: Purpose): (r: Bytes)
    ensures |r| == match p case ForHello(_, _) => 45 case ForAck(_, _) => 69 case ForProbe(_, _) => 28 case ForKey(_,
      _, _) => 82
  {
    match p
    case ForHello(ts, cn) => MAGIC + [1] + Put(ToUint64(ts), 8) + cn
    case ForAck(cn, sn) => MAGIC + [2] + cn + sn
    case ForProbe(ts, nonce) => PROBE_MAGIC + Put(ToUint64(ts), 8) + nonce
    case ForKey(dir, cn, sn) => KEY_LABEL + Label(dir) + cn + sn
  }

  lemma StampInjective(a: int64, b: int64)
    requires Put(ToUint64(a), 8) == Put(ToUint64(b), 8)
    ensures a == b
  {
    Pow256Of8();
    GetPut(ToUint64(a), 8);
    GetPut(ToUint64(b), 8);
  }

  /** One pre-shared key never yields the same MAC input for two purposes, nor for two
      values of one purpose. */
  lemma PurposesNeverCollide(p: Purpose, q: Purpose)
    requires Input(p) == Input(q)
    ensures p == q
  {
    var x, y := Input(p), Input(q);
    match p {
      case ForHello(ts, cn) =>
        assert x[5..13] == Put(ToUint64(ts), 8) && y[5..13] == Put(ToUint64(q.ts), 8);
        assert x[13..] == cn && y[13..] == q.cn;
        StampInjective(ts, q.ts);
      case ForAck(cn, sn) =>
        assert x[5..37] == cn && y[5..37] == q.cn;
        assert x[37..] == sn && y[37..] == q.sn;
      case ForProbe(ts, nonce) =>
        assert x[4..12] == Put(ToUint64(ts), 8) && y[4..12] == Put(ToUint64(q.ts), 8);
        assert x[12..] == nonce && y[12..] == q.nonce;
        StampInjective(ts, q.ts);
      case ForKey(dir, cn, sn) =>
        assert x[15] == Label(dir)[0] && y[15] == Label(q.dir)[0];
        assert x[18..50] == cn && y[18..50] == q.cn;
        assert x[50..] == sn && y[50..] == q.sn;
    }
  }

  // ---------------------------------------------------------------------------
  // Packets

  ghost predicate MacOf32(mac: Bytes -> Bytes)
  {
    forall x :: |mac(x)| == 32
  }

  function MakeHello(mac: Bytes -> Bytes, ts: int64, cn: Random32): Bytes
  {
    var p := Input(ForHello(ts, cn));
    p + mac(p)
  }

  function MakeHelloAck(mac: Bytes -> Bytes, cn: Random32, sn: Random32): Bytes
  {
    var p := Input(ForAck(cn, sn));
    p + mac(p)
  }

  function MakeDirectProbe(mac: Bytes -> Bytes, ts: int64, nonce: ProbeNonce): Bytes
  {
    var p := Input(ForProbe(ts, nonce));
    p + mac(p)
  }

  function KindByte(kind: Kind): byte
  {
    match kind case Data => 3 case Keepalive => 4 case DirectProbeAck => 5
  }

  /** The 13-byte header, which is also the associated data, before the sealed body. */
  function MakeEncrypted(kind: Kind, counter: uint64, body: Bytes): Bytes
  {
    MAGIC + [KindByte(kind)] + Put(counter, 8) + body
  }

  datatype Packet =
    | IsHello(ts: int64, cn: Random32)
    | IsAck(cn: Random32, sn: Random32)
    | IsEncrypted(kind: Kind, counter: uint64, body: Bytes)
    | Ignored

  function Stamp(b: Bytes): int64
    requires |b| == 8
  {
    PutGet(b);
    Pow256Of8();
    ToInt64(Get(b))
  }

  /** recvLoop's dispatch with the length and MAC checks of each handler. */
  function Classify(mac: Bytes -> Bytes, p: Bytes): Packet
  {
    if |p| < 5 || p[..4] != MAGIC then Ignored
    else if p[4] == 1 then
      if |p| != 77 || mac(p[..45]) != p[45..77] then Ignored else IsHello(Stamp(p[5..13]), p[13..45])
    else if p[4] == 2 then
      if |p| != 101 || mac(p[..69]) != p[69..101] then Ignored else IsAck(p[5..37], p[37..69])
    else if p[4] == 3 || p[4] == 4 || p[4] == 5 then
      if |p| < 29 then Ignored
      else
        PutGet(p[5..13]);
        Pow256Of8();
        IsEncrypted(if p[4] == 3 then Data else if p[4] == 4 then Keepalive else DirectProbeAck, Get(p[5..13]), p[13..])
    else Ignored
  }

  lemma StampRoundTrip(ts: int64)
    ensures Stamp(Put(ToUint64(ts), 8)) == ts
  {
    Pow256Of8();
    GetPut(ToUint64(ts), 8);
  }

  lemma StampPrints(b: Bytes)
    requires |b| == 8
    ensures Put(ToUint64(Stamp(b)), 8) == b
  {
    PutGet(b);
    Pow256Of8();
  }

  /** A packet is taken for a hello exactly when it is that hello, byte for byte. */
  lemma HelloRoundTrip(mac: Bytes -> Bytes, p: Bytes, ts: int64, cn: Random32)
    requires MacOf32(mac)
    ensures Classify(mac, p) == IsHello(ts, cn) <==> p == MakeHello(mac, ts, cn)
  {
    var q := MakeHello(mac, ts, cn);
    assert q[..4] == MAGIC && q[4] == 1 && q[..45] == Input(ForHello(ts, cn)) && q[45..77] == mac(q[..45]);
    assert q[5..13] == Put(ToUint64(ts), 8) && q[13..45] == cn;
    StampRoundTrip(ts);
    if Classify(mac, p) == IsHello(ts, cn) {
      StampPrints(p[5..13]);
      assert p[..45] == p[..4] + [p[4]] + p[5..13] + p[13..45];
      assert p == p[..45] + p[45..77];
    }
  }

  lemma AckRoundTrip(mac: Bytes -> Bytes, p: Bytes, cn: Random32, sn: Random32)
    requires MacOf32(mac)
    ensures Classify(mac, p) == IsAck(cn, sn) <==> p == MakeHelloAck(mac, cn, sn)
  {
    var q := MakeHelloAck(mac, cn, sn);
    assert q[..4] == MAGIC && q[4] == 2 && q[..69] == Input(ForAck(cn, sn)) && q[69..101] == mac(q[..69]);
    assert q[5..37] == cn && q[37..69] == sn;
    if Classify(mac, p) == IsAck(cn, sn) {
      assert p[..69] == p[..4] + [p[4]] + p[5..37] + p[37..69];
      assert p == p[..69] + p[69..101];
    }
  }

  /** A sealed body holds at least the 16-byte tag; shorter packets are ignored. */
  lemma EncryptedRoundTrip(mac: Bytes -> Bytes, p: Bytes, kind: Kind, counter: uint64, body: Bytes)
    ensures Classify(mac, p) == IsEncrypted(kind, counter, body) <==>
      p == MakeEncrypted(kind, counter, body) && |body| >= 16
  {
    var q := MakeEncrypted(kind, counter, body);
    assert q[..4] == MAGIC && q[4] == KindByte(kind) && q[5..13] == Put(counter, 8) && q[13..] == body;
    Pow256Of8();
    GetPut(counter, 8);
    if Classify(mac, p) == IsEncrypted(kind, counter, body) {
      PutGet(p[5..13]);
      assert p == p[..4] + [p[4]] + p[5..13] + p[13..];
    }
  }

  /** verifyDirectProbe at the given clock; the timestamp counts seconds. */
  function VerifyDirectProbe(mac: Bytes -> Bytes, p: Bytes, clock: int): Option<ProbeNonce>
  {
    if |p| != 60 || p[..4] != PROBE_MAGIC || mac(p[..28]) != p[28..] then None
    else
      var skew := clock - Stamp(p[4..12]) * SECOND;
      if skew > 90 * SECOND || skew < -90 * SECOND then None else Some(p[12..28])
  }

  /** A probe verifies exactly when it is what makeDirectProbe prints for that nonce and
      a timestamp within 90 seconds of the clock. */
  lemma ProbeRoundTrip(mac: Bytes -> Bytes, p: Bytes, clock: int, nonce: ProbeNonce)
    requires MacOf32(mac)
    ensures VerifyDirectProbe(mac, p, clock) == Some(nonce) <==>
      exists ts: int64 :: p == MakeDirectProbe(mac, ts, nonce) && -90 * SECOND <= clock - ts * SECOND <= 90 * SECOND
  {
    if VerifyDirectProbe(mac, p, clock) == Some(nonce) {
      var ts := Stamp(p[4..12]);
      StampPrints(p[4..12]);
      assert p[..28] == p[..4] + p[4..12] + p[12..28];
      assert p == p[..28] + p[28..];
      assert p == MakeDirectProbe(mac, ts, nonce);
    }
    forall ts: int64 | p == MakeDirectProbe(mac, ts, nonce) ensures |p| == 60 && p[..4] == PROBE_MAGIC
      && p[..28] == Input(ForProbe(ts, nonce)) && Stamp(p[4..12]) == ts && p[12..28] == nonce && mac(p[..28]) == p[28..]
    {
      assert p[..28] == Input(ForProbe(ts, nonce));
      assert p[4..12] == Put(ToUint64(ts), 8);
      StampRoundTrip(ts);
    }
  }

  /** makeNonce: four zero bytes, then the counter. */
  function MakeNonce(counter: uint64): Bytes
  {
    [0, 0, 0, 0] + Put(counter, 8)
  }

  lemma NonceInjective(a: uint64, b: uint64)
    requires MakeNonce(a) == MakeNonce(b)
    ensures a == b
  {
    assert MakeNonce(a)[4..] == Put(a, 8) && MakeNonce(b)[4..] == Put(b, 8);
    Pow256Of8();
    GetPut(a, 8);
    GetPut(b, 8);
  }
}
