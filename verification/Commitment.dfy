/** Packet commitments (solo-machine-core/src/ibc/core/ics04_channel/packet.rs). */
module Commitment {
  import opened Wrappers
  import opened Bytes
  import opened Text
  import opened Records

  /** The output of SHA-256. */
  type Digest = b: Bytes | |b| == 32 witness seq(32, _ => 0)

  /** SHA-256 itself is a parameter. */
  type Hash = Bytes -> Digest

  /** The bytes that are hashed. */
  function Preimage(hash: Hash, p: Packet): Bytes
    requires p.timeoutHeight.Some?
  {
    ToBigEndian(p.timeoutTimestamp, 8)
    + ToBigEndian(p.timeoutHeight.value.revisionNumber, 8)
    + ToBigEndian(p.timeoutHeight.value.revisionHeight, 8)
    + hash(p.data)
  }

  /** Extends a buffer field by field and hashes it; a packet without a timeout height is refused. */
  method CommitmentBytes(hash: Hash, p: Packet) returns (commitment: Option<Digest>)
    ensures commitment.None? <==> p.timeoutHeight.None?
    ensures commitment.Some? ==> commitment.value == hash(Preimage(hash, p))
    ensures Representable(p) ==> exists buf: Bytes ::
      && commitment == Some(hash(buf)) && |buf| == 56
      && FromBigEndian(buf[0..8]) == p.timeoutTimestamp
      && FromBigEndian(buf[8..16]) == p.timeoutHeight.value.revisionNumber
      && FromBigEndian(buf[16..24]) == p.timeoutHeight.value.revisionHeight
      && buf[24..] == hash(p.data)
  {
    if p.timeoutHeight.None? {
      return None;
    }
    var timeoutHeight := p.timeoutHeight.value;
    var buf: Bytes := [];
    buf := buf + ToBigEndian(p.timeoutTimestamp, 8);
    buf := buf + ToBigEndian(timeoutHeight.revisionNumber, 8);
    buf := buf + ToBigEndian(timeoutHeight.revisionHeight, 8);
    buf := buf + hash(p.data);
    assert buf == Preimage(hash, p);
    if Representable(p) {
      PreimageLayout(hash, p);
    }
    return Some(hash(buf));
  }

  predicate Representable(p: Packet) {
    p.timeoutTimestamp <= U64_MAX && p.timeoutHeight.Some? && p.timeoutHeight.value.Valid()
  }

  /** The buffer is 56 bytes: the timeout timestamp, the revision number and the revision height of the timeout height,
      8 bytes each, and the hash of the data, in this order. */
  lemma PreimageLayout(hash: Hash, p: Packet)
    requires Representable(p)
    ensures var b := Preimage(hash, p);
      && |b| == 56
      && FromBigEndian(b[0..8]) == p.timeoutTimestamp
      && FromBigEndian(b[8..16]) == p.timeoutHeight.value.revisionNumber
      && FromBigEndian(b[16..24]) == p.timeoutHeight.value.revisionHeight
      && b[24..] == hash(p.data)
  {
    var b, h := Preimage(hash, p), p.timeoutHeight.value;
    Pow256Eight();
    BigEndianRoundTrip(p.timeoutTimestamp, 8);
    BigEndianRoundTrip(h.revisionNumber, 8);
    BigEndianRoundTrip(h.revisionHeight, 8);
    assert b[0..8] == ToBigEndian(p.timeoutTimestamp, 8);
    assert b[8..16] == ToBigEndian(h.revisionNumber, 8);
    assert b[16..24] == ToBigEndian(h.revisionHeight, 8);
  }

  /** The preimage is 56 bytes long, and two packets share it exactly when the timeout timestamp, both parts of the
      timeout height and the hash of the data agree. */
  lemma PreimageDetermines(hash: Hash, p: Packet, q: Packet)
    requires Representable(p) && Representable(q)
    ensures |Preimage(hash, p)| == 56
    ensures Preimage(hash, p) == Preimage(hash, q) <==>
      p.timeoutTimestamp == q.timeoutTimestamp && p.timeoutHeight == q.timeoutHeight && hash(p.data) == hash(q.data)
  {
    PreimageLayout(hash, p);
    PreimageLayout(hash, q);
  }
}
