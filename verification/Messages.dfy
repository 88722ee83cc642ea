/** The HSH1 messages with symbolic cryptography: a MAC is the term that names its
    input, a sealed box is the term that names its key, nonce, header and plaintext.
    Nobody without the pre-shared key can build such a term; `Forged` and `Garbage`
    stand for every byte string that verifies under nothing. */
module Messages {
  import opened Words

  datatype Option<+T> = None | Some(value: T)

  type byte = b: nat | b < 256
  type Bytes = seq<byte>

  /** `uint64(len(p))` */
  function Len(p: Bytes): uint64
  {
    |p| % U64
  }

  /** A 32-byte handshake random (client nonce, server nonce). */
  type Nonce = nat

  /** The random of one direct probe. */
  type ProbeNonce = b: Bytes | |b| == 16 witness seq(16, i => 0)

  type Peer = string

  /** Times are in nanoseconds. */
  const SECOND: int := 1_000_000_000

  datatype Role = Iran | Kharej

  datatype Direction = C2S | S2C

  /** deriveSession's HMAC output for one direction. */
  datatype Key = Key(dir: Direction, cn: Nonce, sn: Nonce)

  datatype Kind = Data | Keepalive | DirectProbeAck

  datatype MacInput =
    | HelloInput(ts: int, cn: Nonce)
    | AckInput(cn: Nonce, sn: Nonce)
    | ProbeInput(ts: int, probe: ProbeNonce)

  datatype Tag = Mac(input: MacInput) | Forged(n: nat)

  /** AEAD output: the 12-byte nonce holds the counter, the 13-byte header is the
      associated data and holds kind and counter. */
  datatype Box =
    | Sealed(key: Key, nonce: uint64, kind: Kind, counter: uint64, plain: Bytes)
    | Garbage(n: nat)

  datatype Datagram =
    | Hello(ts: int, cn: Nonce, tag: Tag)
    | HelloAck(cn: Nonce, sn: Nonce, tag: Tag)
    | Encrypted(kind: Kind, counter: uint64, box: Box)

  function Seal(key: Key, kind: Kind, counter: uint64, plain: Bytes): Box
  {
    Sealed(key, counter, kind, counter, plain)
  }

  function Open(key: Key, kind: Kind, counter: uint64, box: Box): Option<Bytes>
  {
    if box.Sealed? && box == Seal(key, kind, counter, box.plain) then Some(box.plain) else None
  }

  function MakeHelloAck(cn: Nonce, sn: Nonce): Datagram
  {
    HelloAck(cn, sn, Mac(AckInput(cn, sn)))
  }

  /** The keys a side sends and receives with. */
  function TxKey(role: Role, cn: Nonce, sn: Nonce): Key
  {
    Key(if role.Iran? then C2S else S2C, cn, sn)
  }

  function RxKey(role: Role, cn: Nonce, sn: Nonce): Key
  {
    Key(if role.Iran? then S2C else C2S, cn, sn)
  }

  function Other(role: Role): Role
  {
    if role.Iran? then Kharej else Iran
  }
}
