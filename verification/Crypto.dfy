/** Verification of single and nested threshold signatures (solo-machine-core/src/cosmos/crypto.rs and
    solo-machine-core/src/cosmos/crypto/multisig.rs). */
module Crypto {
  import opened Wrappers
  import opened BitArray
  import opened Bytes

  datatype Algorithm = Secp256k1 | Ed25519 | EthSecp256k1

  datatype PublicKey =
    | Single(algorithm: Algorithm, key: Bytes)
    | Multisig(threshold: nat, publicKeys: seq<PublicKey>)

  datatype SignatureData =
    | SingleSignature(signature: Bytes)
    | MultiSignature(bitarray: Option<CompactBitArray>, signatures: seq<Option<SignatureData>>)

  /** Verification of one signature by one key: algorithm, key, message, signature. */
  type Verifier = (Algorithm, Bytes, Bytes, Bytes) -> bool

  /** A check accepts, rejects with an error, or stops at an index or a length that is out of range. */
  datatype Verdict = Accepted | Rejected | Fault

  const ED25519_SIGNATURE_LEN := 64

  // ----- which inputs are accepted, which fault -----

  /** The single-key check. */
  predicate AcceptsSingle(v: Verifier, algorithm: Algorithm, key: Bytes, message: Bytes, signature: Bytes) {
    (algorithm == Ed25519 ==> |signature| == ED25519_SIGNATURE_LEN) && v(algorithm, key, message, signature)
  }

  /** The checks of a multi-signature that come before any of its signatures is looked at. */
  predicate SizesFit(threshold: nat, keys: nat, signatures: nat, a: CompactBitArray) {
    a.HasLength() && keys == a.Len() && threshold <= signatures <= keys
  }

  /** The input passes every check. */
  ghost predicate Accepts(v: Verifier, key: PublicKey, message: Bytes, data: SignatureData)
    decreases key, 1
  {
    match key
    case Single(algorithm, k) => data.SingleSignature? && AcceptsSingle(v, algorithm, k, message, data.signature)
    case Multisig(threshold, keys) =>
      && Fits(key, data)
      && threshold <= Count(BitsOf(key, data))
      && forall i | 0 <= i < |keys| && BitsOf(key, data)[i] :: AcceptsAt(v, key, message, data, i)
  }

  /** A readable array of the right size with a signature list of the right size. */
  predicate Fits(key: PublicKey, data: SignatureData) {
    && key.Multisig? && data.MultiSignature? && data.bitarray.Some?
    && SizesFit(key.threshold, |key.publicKeys|, |data.signatures|, data.bitarray.value)
    && data.bitarray.value.Readable()
  }

  function BitsOf(key: PublicKey, data: SignatureData): (bits: seq<bool>)
    requires Fits(key, data)
    ensures |bits| == |key.publicKeys|
  {
    data.bitarray.value.Bits()
  }

  /** The key at position `i` accepts the signature at the position's rank. */
  ghost predicate AcceptsAt(v: Verifier, key: PublicKey, message: Bytes, data: SignatureData, i: nat)
    requires Fits(key, data) && i < |key.publicKeys|
    decreases key, 0
  {
    var rank := Rank(BitsOf(key, data), i);
    && rank < |data.signatures| && data.signatures[rank].Some?
    && Accepts(v, key.publicKeys[i], message, data.signatures[rank].value)
  }

  /** The length underflows, or a position has no byte, or a set position is reached that faults. */
  ghost predicate Faults(v: Verifier, key: PublicKey, message: Bytes, data: SignatureData)
    decreases key, 1
  {
    && key.Multisig? && data.MultiSignature? && data.bitarray.Some?
    && var a := data.bitarray.value;
    || !a.HasLength()
    || (SizesFit(key.threshold, |key.publicKeys|, |data.signatures|, a) && !a.Readable())
    || (&& Fits(key, data) && key.threshold <= Count(BitsOf(key, data))
        && exists i :: 0 <= i < |key.publicKeys| && BitsOf(key, data)[i] && FaultsAt(v, key, message, data, i))
  }

  /** The set positions before `i` accept, and there is no signature left for `i`, or its check faults. */
  ghost predicate FaultsAt(v: Verifier, key: PublicKey, message: Bytes, data: SignatureData, i: nat)
    requires Fits(key, data) && i < |key.publicKeys|
    decreases key, 0
  {
    var rank := Rank(BitsOf(key, data), i);
    && (forall j | 0 <= j < i && BitsOf(key, data)[j] :: AcceptsAt(v, key, message, data, j))
    && (rank < |data.signatures| ==>
          data.signatures[rank].Some? && Faults(v, key.publicKeys[i], message, data.signatures[rank].value))
  }

  // ----- the checks -----

  method VerifySignature(v: Verifier, key: PublicKey, message: Bytes, data: SignatureData) returns (verdict: Verdict)
    ensures verdict == Accepted <==> Accepts(v, key, message, data)
    ensures verdict == Fault <==> Faults(v, key, message, data)
    decreases key, 1
  {
    match (key, data)
    case (Single(algorithm, k), SingleSignature(signature)) =>
      verdict := if AcceptsSingle(v, algorithm, k, message, signature) then Accepted else Rejected;
    case (Multisig(_, _), MultiSignature(_, _)) =>
      verdict := VerifyMultiSignature(v, key, message, data);
    case (_, _) =>
      verdict := Rejected;
  }

  method VerifyMultiSignature(v: Verifier, key: PublicKey, message: Bytes, data: SignatureData)
    returns (verdict: Verdict)
    requires key.Multisig? && data.MultiSignature?
    ensures verdict == Accepted <==> Accepts(v, key, message, data)
    ensures verdict == Fault <==> Faults(v, key, message, data)
    decreases key, 0, 1
  {
    if data.bitarray.None? {
      return Rejected;
    }
    var bitArray, signatures := data.bitarray.value, data.signatures;
    if !bitArray.HasLength() {
      return Fault;
    }
    var size := bitArray.Len();
    if |key.publicKeys| != size || !(key.threshold <= |signatures| <= size) {
      return Rejected;
    }
    var trueBits := NumTrueBitsBefore(bitArray, size);
    if trueBits.None? {
      assert !bitArray.Readable();
      return Fault;
    }
    assert bitArray.Readable();
    assert trueBits.value == Count(BitsOf(key, data));
    if trueBits.value < key.threshold {
      return Rejected;
    }
    verdict := VerifyPositions(v, key, message, data);
  }

  /** The loop over the positions: each set one takes the next signature. */
  method VerifyPositions(v: Verifier, key: PublicKey, message: Bytes, data: SignatureData) returns (verdict: Verdict)
    requires Fits(key, data)
    ensures verdict == Accepted <==>
      forall i | 0 <= i < |key.publicKeys| && BitsOf(key, data)[i] :: AcceptsAt(v, key, message, data, i)
    ensures verdict == Fault <==>
      exists i :: 0 <= i < |key.publicKeys| && BitsOf(key, data)[i] && FaultsAt(v, key, message, data, i)
    decreases key, 0, 0
  {
    var bitArray, signatures := data.bitarray.value, data.signatures;
    ghost var bits := BitsOf(key, data);
    var signatureIndex := 0;
    for i := 0 to bitArray.Len()
      invariant signatureIndex == Rank(bits, i)
      invariant forall j | 0 <= j < i && bits[j] ::
        AcceptsAt(v, key, message, data, j) && !FaultsAt(v, key, message, data, j)
    {
      ReadableBit(bitArray, i);
      RankNext(bits, i);
      if bitArray.Get(i) {
        if signatureIndex >= |signatures| {
          assert FaultsAt(v, key, message, data, i);
          return Fault;
        }
        if signatures[signatureIndex].None? {
          assert !AcceptsAt(v, key, message, data, i);
          return Rejected;
        }
        verdict := VerifySignature(v, key.publicKeys[i], message, signatures[signatureIndex].value);
        if verdict != Accepted {
          assert !AcceptsAt(v, key, message, data, i);
          assert verdict == Fault <==> FaultsAt(v, key, message, data, i);
          return;
        }
        signatureIndex := signatureIndex + 1;
      }
    }
    return Accepted;
  }

  // ----- what acceptance means -----

  /** At least `threshold` distinct positions were each signed for by a signature of their own: the j-th signature by
      the key at the j-th of increasing positions; and so on inside every nested key. */
  ghost predicate Authorised(v: Verifier, key: PublicKey, message: Bytes, data: SignatureData)
    decreases key
  {
    match key
    case Single(algorithm, k) => data.SingleSignature? && v(algorithm, k, message, data.signature)
    case Multisig(threshold, keys) =>
      && data.MultiSignature?
      && exists positions: seq<nat> ::
           && threshold <= |positions| <= |data.signatures|
           && (forall j, k | 0 <= j < k < |positions| :: positions[j] < positions[k])
           && (forall j | 0 <= j < |positions| ::
                 && positions[j] < |keys| && data.signatures[j].Some?
                 && Authorised(v, keys[positions[j]], message, data.signatures[j].value))
  }

  /** The set positions, in increasing order. */
  function Positions(bits: seq<bool>): seq<nat> {
    if bits == [] then []
    else Positions(bits[..|bits| - 1]) + (if bits[|bits| - 1] then [|bits| - 1] else [])
  }

  lemma {:induction false} PositionsHaveRanks(bits: seq<bool>)
    ensures |Positions(bits)| == Count(bits)
    ensures forall j | 0 <= j < |Positions(bits)| ::
              Positions(bits)[j] < |bits| && bits[Positions(bits)[j]] && Rank(bits, Positions(bits)[j]) == j
    ensures forall j, k | 0 <= j < k < |Positions(bits)| :: Positions(bits)[j] < Positions(bits)[k]
  {
    if bits == [] {
    } else {
      var init := bits[..|bits| - 1];
      PositionsHaveRanks(init);
      forall j | 0 <= j < |Positions(init)|
        ensures Rank(bits, Positions(init)[j]) == j
      {
        assert bits[..Positions(init)[j]] == init[..Positions(init)[j]];
      }
    }
  }

  /** A signature as it should be. For a single key it verifies, and has 64 bytes for Ed25519. For a threshold key there
      is a bit for every key, at least `threshold` of them set, a signature for every set bit and no more signatures
      than keys; and the j-th signature is one as it should be of the key at the j-th set bit. */
  ghost predicate ProperlySigned(v: Verifier, key: PublicKey, message: Bytes, data: SignatureData)
    decreases key
  {
    match key
    case Single(algorithm, k) =>
      && data.SingleSignature? && (algorithm == Ed25519 ==> |data.signature| == 64)
      && v(algorithm, k, message, data.signature)
    case Multisig(threshold, keys) =>
      && data.MultiSignature? && data.bitarray.Some? && data.bitarray.value.Readable()
      && var bits := data.bitarray.value.Bits();
      && |bits| == |keys|
      && threshold <= Count(bits) <= |data.signatures| <= |keys|
      && forall j | 0 <= j < |Positions(bits)| && Positions(bits)[j] < |keys| && j < |data.signatures| ::
           && data.signatures[j].Some?
           && ProperlySigned(v, keys[Positions(bits)[j]], message, data.signatures[j].value)
  }

  /** The rank of a set bit leads back to it. */
  lemma {:induction false} PositionAtRank(bits: seq<bool>, i: nat)
    requires i < |bits| && bits[i]
    ensures Rank(bits, i) < |Positions(bits)| && Positions(bits)[Rank(bits, i)] == i
  {
    var init := bits[..|bits| - 1];
    PositionsHaveRanks(bits);
    PositionsHaveRanks(init);
    if i < |bits| - 1 {
      assert init[..i] == bits[..i];
      PositionAtRank(init, i);
    } else {
      assert bits[..i] == init;
    }
  }

  /** The check accepts exactly what is properly signed. */
  lemma {:induction false} AcceptedIffProperlySigned(v: Verifier, key: PublicKey, message: Bytes, data: SignatureData)
    ensures Accepts(v, key, message, data) <==> ProperlySigned(v, key, message, data)
    decreases key, 1
  {
    match key
    case Single(_, _) =>
    case Multisig(_, keys) =>
      if Accepts(v, key, message, data) {
        ProperlySignedIfAccepted(v, key, message, data);
      }
      if ProperlySigned(v, key, message, data) {
        var bits := data.bitarray.value.Bits();
        PositionsHaveRanks(bits);
        forall i | 0 <= i < |keys| && bits[i]
          ensures AcceptsAt(v, key, message, data, i)
        {
          PositionAtRank(bits, i);
          AcceptedIffProperlySigned(v, keys[i], message, data.signatures[Rank(bits, i)].value);
        }
      }
  }

  lemma {:induction false} ProperlySignedIfAccepted(v: Verifier, key: PublicKey, message: Bytes, data: SignatureData)
    requires key.Multisig? && Accepts(v, key, message, data)
    ensures ProperlySigned(v, key, message, data)
    decreases key, 0
  {
    var bits := BitsOf(key, data);
    PositionsHaveRanks(bits);
    SignaturesSuffice(v, key, message, data);
    forall j | 0 <= j < |Positions(bits)|
      ensures data.signatures[j].Some?
      ensures ProperlySigned(v, key.publicKeys[Positions(bits)[j]], message, data.signatures[j].value)
    {
      assert AcceptsAt(v, key, message, data, Positions(bits)[j]);
      AcceptedIffProperlySigned(v, key.publicKeys[Positions(bits)[j]], message, data.signatures[j].value);
    }
  }

  /** Accepting never uses more signatures than there are. */
  lemma SignaturesSuffice(v: Verifier, key: PublicKey, message: Bytes, data: SignatureData)
    requires key.Multisig? && Accepts(v, key, message, data)
    ensures Count(BitsOf(key, data)) <= |data.signatures|
  {
    var positions := Positions(BitsOf(key, data));
    PositionsHaveRanks(BitsOf(key, data));
    if positions != [] {
      assert AcceptsAt(v, key, message, data, positions[|positions| - 1]);
    }
  }

  /** Nested threshold soundness: what the check accepts is authorised at every level. */
  lemma {:induction false} AcceptedIsAuthorised(v: Verifier, key: PublicKey, message: Bytes, data: SignatureData)
    requires Accepts(v, key, message, data)
    ensures Authorised(v, key, message, data)
    decreases key
  {
    if key.Single? {
    } else {
      var bits := BitsOf(key, data);
      var positions := Positions(bits);
      PositionsHaveRanks(bits);
      SignaturesSuffice(v, key, message, data);
      forall j | 0 <= j < |positions|
        ensures data.signatures[j].Some?
        ensures Authorised(v, key.publicKeys[positions[j]], message, data.signatures[j].value)
      {
        assert AcceptsAt(v, key, message, data, positions[j]);
        AcceptedIsAuthorised(v, key.publicKeys[positions[j]], message, data.signatures[j].value);
      }
    }
  }

  /** Every array in the signature is readable and sets no more bits than there are signatures. */
  ghost predicate WellFormed(data: SignatureData)
    decreases data
  {
    data.MultiSignature? ==>
      && (data.bitarray.Some? ==>
            data.bitarray.value.Readable() && Count(data.bitarray.value.Bits()) <= |data.signatures|)
      && (forall j | 0 <= j < |data.signatures| && data.signatures[j].Some? :: WellFormed(data.signatures[j].value))
  }

  /** The check never leaves its ranges on well-formed signatures. */
  lemma {:induction false} WellFormedNeverFaults(v: Verifier, key: PublicKey, message: Bytes, data: SignatureData)
    requires WellFormed(data)
    ensures !Faults(v, key, message, data)
    decreases key
  {
    if !Fits(key, data) {
    } else {
      var bits := BitsOf(key, data);
      assert bits[..|bits|] == bits;
      forall i | 0 <= i < |key.publicKeys| && bits[i]
        ensures !FaultsAt(v, key, message, data, i)
      {
        RankMonotone(bits, i, |bits|);
        var signature := data.signatures[Rank(bits, i)];
        if signature.Some? {
          WellFormedNeverFaults(v, key.publicKeys[i], message, signature.value);
        }
      }
    }
  }

  /** What is accepted has stayed within all ranges. */
  lemma {:induction false} AcceptedNeverFaults(v: Verifier, key: PublicKey, message: Bytes, data: SignatureData)
    requires Accepts(v, key, message, data)
    ensures !Faults(v, key, message, data)
    decreases key
  {
    match key
    case Single(_, _) =>
    case Multisig(_, keys) =>
      forall i | 0 <= i < |keys| && BitsOf(key, data)[i]
        ensures !FaultsAt(v, key, message, data, i)
      {
        assert AcceptsAt(v, key, message, data, i);
        AcceptedNeverFaults(v, keys[i], message, data.signatures[Rank(BitsOf(key, data), i)].value);
      }
  }

  /** When every signature that is there verifies, the index leaves the signature list if and only if more bits are set
      than there are signatures. */
  lemma TooManyBitsFault(v: Verifier, key: PublicKey, message: Bytes, data: SignatureData)
    requires Fits(key, data) && key.threshold <= Count(BitsOf(key, data))
    requires forall i | 0 <= i < |key.publicKeys| && BitsOf(key, data)[i] &&
             Rank(BitsOf(key, data), i) < |data.signatures| ::
               AcceptsAt(v, key, message, data, i)
    ensures Faults(v, key, message, data) <==> Count(BitsOf(key, data)) > |data.signatures|
  {
    var bits, n := BitsOf(key, data), |data.signatures|;
    if Count(bits) > n {
      PositionsHaveRanks(bits);
      var i := Positions(bits)[n];
      forall j | 0 <= j < i && bits[j]
        ensures AcceptsAt(v, key, message, data, j)
      {
        RankMonotone(bits, j, i);
      }
      assert FaultsAt(v, key, message, data, i);
    } else {
      assert bits[..|bits|] == bits;
      forall i | 0 <= i < |bits| && bits[i]
        ensures AcceptsAt(v, key, message, data, i)
      {
        RankMonotone(bits, i, |bits|);
      }
      AcceptedNeverFaults(v, key, message, data);
    }
  }

  // ----- faults without looking at the cryptography -----

  /** Every position that is set has a signature of the right shape, as many levels down as there are. */
  predicate Complete(key: PublicKey, data: SignatureData)
    decreases key, 1
  {
    match key
    case Single(algorithm, _) => data.SingleSignature? &&
      (algorithm == Ed25519 ==> |data.signature| == ED25519_SIGNATURE_LEN)
    case Multisig(threshold, keys) =>
      && Fits(key, data)
      && threshold <= Count(BitsOf(key, data))
      && forall i | 0 <= i < |keys| && BitsOf(key, data)[i] :: CompleteAt(key, data, i)
  }

  predicate CompleteAt(key: PublicKey, data: SignatureData, i: nat)
    requires Fits(key, data) && i < |key.publicKeys|
    decreases key, 0
  {
    var rank := Rank(BitsOf(key, data), i);
    rank < |data.signatures| && data.signatures[rank].Some? && Complete(key.publicKeys[i], data.signatures[rank].value)
  }

  /** The shape alone keeps the check within its ranges: the array has a length; if the sizes fit, every position has a
      byte; and the set positions up to the first incomplete one all have their place in the signature list, where
      what is found there is safe in turn. */
  predicate Safe(key: PublicKey, data: SignatureData)
    decreases key
  {
    key.Multisig? && data.MultiSignature? && data.bitarray.Some? ==>
      && data.bitarray.value.HasLength()
      && (SizesFit(key.threshold, |key.publicKeys|, |data.signatures|, data.bitarray.value) ==>
            data.bitarray.value.Readable())
      && (Fits(key, data) && key.threshold <= Count(BitsOf(key, data)) ==>
            forall i | 0 <= i < |key.publicKeys| && BitsOf(key, data)[i]
                       && (forall j | 0 <= j < i && BitsOf(key, data)[j] :: CompleteAt(key, data, j)) ::
              var rank := Rank(BitsOf(key, data), i);
              rank < |data.signatures| &&
                (data.signatures[rank].Some? ==> Safe(key.publicKeys[i], data.signatures[rank].value)))
  }

  lemma {:induction false} AcceptedIsComplete(v: Verifier, key: PublicKey, message: Bytes, data: SignatureData)
    requires Accepts(v, key, message, data)
    ensures Complete(key, data)
    decreases key
  {
    match key
    case Single(_, _) =>
    case Multisig(_, keys) =>
      forall i | 0 <= i < |keys| && BitsOf(key, data)[i]
        ensures CompleteAt(key, data, i)
      {
        assert AcceptsAt(v, key, message, data, i);
        AcceptedIsComplete(v, keys[i], message, data.signatures[Rank(BitsOf(key, data), i)].value);
      }
  }

  lemma {:induction false} CompleteIsAccepted(v: Verifier, key: PublicKey, message: Bytes, data: SignatureData)
    requires Complete(key, data) && forall a, k, m, s :: v(a, k, m, s)
    ensures Accepts(v, key, message, data)
    decreases key
  {
    match key
    case Single(_, _) =>
    case Multisig(_, keys) =>
      forall i | 0 <= i < |keys| && BitsOf(key, data)[i]
        ensures AcceptsAt(v, key, message, data, i)
      {
        assert CompleteAt(key, data, i);
        CompleteIsAccepted(v, keys[i], message, data.signatures[Rank(BitsOf(key, data), i)].value);
      }
  }

  lemma {:induction false} SafeNeverFaults(v: Verifier, key: PublicKey, message: Bytes, data: SignatureData)
    requires Safe(key, data)
    ensures !Faults(v, key, message, data)
    decreases key
  {
    if !Fits(key, data) || key.threshold > Count(BitsOf(key, data)) {
    } else {
      var bits := BitsOf(key, data);
      forall i | 0 <= i < |key.publicKeys| && bits[i]
        ensures !FaultsAt(v, key, message, data, i)
      {
        if FaultsAt(v, key, message, data, i) {
          forall j | 0 <= j < i && bits[j]
            ensures CompleteAt(key, data, j)
          {
            assert AcceptsAt(v, key, message, data, j);
            AcceptedIsComplete(v, key.publicKeys[j], message, data.signatures[Rank(bits, j)].value);
          }
          SafeNeverFaults(v, key.publicKeys[i], message, data.signatures[Rank(bits, i)].value);
        }
      }
    }
  }

  lemma {:induction false} UnsafeFaults(v: Verifier, key: PublicKey, message: Bytes, data: SignatureData)
    requires !Safe(key, data) && forall a, k, m, s :: v(a, k, m, s)
    ensures Faults(v, key, message, data)
    decreases key
  {
    if !data.bitarray.value.HasLength() || !Fits(key, data) || key.threshold > Count(BitsOf(key, data)) {
    } else {
      var bits := BitsOf(key, data);
      var i: nat :| i < |key.publicKeys| && bits[i] && (forall j | 0 <= j < i && bits[j] :: CompleteAt(key, data, j))
        && (Rank(bits, i) < |data.signatures| ==>
              data.signatures[Rank(bits, i)].Some? && !Safe(key.publicKeys[i], data.signatures[Rank(bits, i)].value));
      forall j | 0 <= j < i && bits[j]
        ensures AcceptsAt(v, key, message, data, j)
      {
        assert CompleteAt(key, data, j);
        CompleteIsAccepted(v, key.publicKeys[j], message, data.signatures[Rank(bits, j)].value);
      }
      if Rank(bits, i) < |data.signatures| {
        UnsafeFaults(v, key.publicKeys[i], message, data.signatures[Rank(bits, i)].value);
      }
      assert FaultsAt(v, key, message, data, i);
    }
  }

  /** The check stays within its ranges, whatever the single signatures are worth, if and only if the shapes of key and
      signature are safe together. */
  lemma NeverFaultsIffSafe(key: PublicKey, message: Bytes, data: SignatureData)
    ensures (forall v: Verifier :: !Faults(v, key, message, data)) <==> Safe(key, data)
  {
    if Safe(key, data) {
      forall v: Verifier
        ensures !Faults(v, key, message, data)
      {
        SafeNeverFaults(v, key, message, data);
      }
    } else {
      var lenient: Verifier := (a: Algorithm, k: Bytes, m: Bytes, s: Bytes) => true;
      UnsafeFaults(lenient, key, message, data);
      assert exists v: Verifier :: Faults(v, key, message, data);
    }
  }
}
