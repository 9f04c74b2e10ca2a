/** Outpoints, inputs, outputs and transactions, with the confidential-asset
    extensions: the issuance flag packed into an input's outpoint index and
    the extended serialisation format selected by a flags byte. A stream is
    modelled as a sequence of items, one per field written. */
module Transaction {
  import opened Basics
  import opened Blob
  import opened Script

  const NULL_INDEX: uint32 := 0xFFFF_FFFF
  const OUTPOINT_ISSUANCE_FLAG: uint32 := 0x8000_0000
  const OUTPOINT_INDEX_MASK: uint32 := 0x7FFF_FFFF
  const SEQUENCE_FINAL: uint32 := 0xFFFF_FFFF
  const CURRENT_VERSION: int := 2
  const CONFIDENTIAL_VERSION: int := 3

  // ---------------------------------------------------------------- COutPoint

  datatype OutPoint = OutPoint(hash: uint256, n: uint32)

  /** COutPoint(): a zero hash and n == NULL_INDEX. */
  const DefaultOutPoint: OutPoint := OutPoint(NullHash, NULL_INDEX)

  /** COutPoint::IsNull: a zero hash and n == NULL_INDEX, that is, the default outpoint. */
  predicate IsNull(o: OutPoint)
    ensures IsNull(o) <==> o == DefaultOutPoint
  {
    NullBlobIsZeros(o.hash);
    IsNullBlob(o.hash) && o.n == NULL_INDEX
  }

  /** SetNull, on a value: the hash cleared and the index set to NULL_INDEX. */
  function SetNull(o: OutPoint): (r: OutPoint)
    ensures IsNull(r)
  {
    o.(hash := NullHash, n := NULL_INDEX)
  }

  lemma DefaultIsNull()
    ensures IsNull(DefaultOutPoint)
  {
  }

  /** operator< */
  predicate Less(a: OutPoint, b: OutPoint)
  {
    var cmp := Compare(a.hash, b.hash);
    cmp < 0 || (cmp == 0 && a.n < b.n)
  }

  /** operator== */
  predicate Equal(a: OutPoint, b: OutPoint)
    ensures Equal(a, b) <==> a == b
  {
    a.hash == b.hash && a.n == b.n
  }

  /** operator!= */
  predicate NotEqual(a: OutPoint, b: OutPoint)
    ensures NotEqual(a, b) <==> a != b
  {
    !Equal(a, b)
  }

  /** operator< orders by hash first and by index among equal hashes. */
  lemma LessIsLexicographic(a: OutPoint, b: OutPoint)
    ensures Less(a, b) <==> BlobLess(a.hash, b.hash) || (a.hash == b.hash && a.n < b.n)
  {
    CompareZeroIffEqual(a.hash, b.hash);
  }

  lemma LessIrreflexive(a: OutPoint)
    ensures !Less(a, a)
  {
    CompareZeroIffEqual(a.hash, a.hash);
  }

  lemma LessTransitive(a: OutPoint, b: OutPoint, c: OutPoint)
    requires Less(a, b) && Less(b, c)
    ensures Less(a, c)
  {
    CompareZeroIffEqual(a.hash, b.hash);
    CompareZeroIffEqual(b.hash, c.hash);
    CompareZeroIffEqual(a.hash, c.hash);
    if Compare(a.hash, b.hash) < 0 && Compare(b.hash, c.hash) < 0 {
      CompareTransitive(a.hash, b.hash, c.hash);
    }
  }

  /** Any two outpoints are related in exactly one way: a < b, a == b or b < a. */
  lemma LessTrichotomous(a: OutPoint, b: OutPoint)
    ensures Less(a, b) || Equal(a, b) || Less(b, a)
    ensures !(Less(a, b) && Less(b, a))
    ensures Equal(a, b) ==> !Less(a, b)
  {
    CompareZeroIffEqual(a.hash, b.hash);
    CompareAntisymmetric(a.hash, b.hash);
  }

  // ---------------------------------------------------------------- inputs, outputs

  /** A CAssetIssuance, opaque apart from being null or not. */
  datatype AssetIssuance = NullIssuance | Issuance(content: seq<byte>)

  /** nAsset, nValueCA and nNonce of an output, opaque; null when all are. */
  datatype Confidential = Confidential(asset: seq<byte>, value: seq<byte>, nonce: seq<byte>)

  const NullConfidential: Confidential := Confidential([], [], [])

  datatype TxIn = TxIn(
    prevout: OutPoint,
    scriptSig: Script,
    nSequence: uint32,
    scriptWitness: seq<seq<byte>>,
    assetIssuance: AssetIssuance,
    issuanceAmountRangeproof: seq<byte>,
    inflationKeysRangeproof: seq<byte>)

  /** CTxIn(): a null prevout, an empty script and SEQUENCE_FINAL. */
  const DefaultTxIn: TxIn := TxIn(DefaultOutPoint, [], SEQUENCE_FINAL, [], NullIssuance, [], [])

  datatype TxOut = TxOut(
    nValue: int,
    scriptPubKey: Script,
    flags: byte,
    confidential: Confidential,
    surjectionproof: seq<byte>,
    rangeproof: seq<byte>)

  /** CTxOut(): SetNull, so nValue == -1, an empty script, null CA fields. */
  const DefaultTxOut: TxOut := TxOut(-1, [], 0, NullConfidential, [], [])

  datatype Transaction = Transaction(vin: seq<TxIn>, vout: seq<TxOut>, nVersion: int, nLockTime: uint32)

  // ---------------------------------------------------------------- predicates

  /** CTransaction::IsNull: no inputs and no outputs. Such a transaction is
      neither a coinbase nor carries a witness. */
  predicate IsNullTx(tx: Transaction)
    ensures IsNullTx(tx) ==> !IsCoinBase(tx) && !HasWitness(tx)
  {
    |tx.vin| == 0 && |tx.vout| == 0
  }

  /** CTransaction::IsCoinBase: a single input spending the default outpoint. */
  predicate IsCoinBase(tx: Transaction)
    ensures IsCoinBase(tx) <==> |tx.vin| == 1 && tx.vin[0].prevout == DefaultOutPoint
  {
    |tx.vin| == 1 && IsNull(tx.vin[0].prevout)
  }

  predicate IsVersionCA(tx: Transaction)
  {
    tx.nVersion == CONFIDENTIAL_VERSION
  }

  predicate InputHasProof(t: TxIn)
  {
    t.issuanceAmountRangeproof != [] || t.inflationKeysRangeproof != []
  }

  predicate OutputHasProof(o: TxOut)
  {
    o.surjectionproof != [] || o.rangeproof != []
  }

  /** Some input carries a range proof or some output a surjection or range proof. */
  predicate HasCAProof(tx: Transaction)
  {
    (exists i :: 0 <= i < |tx.vin| && InputHasProof(tx.vin[i]))
    || (exists i :: 0 <= i < |tx.vout| && OutputHasProof(tx.vout[i]))
  }

  /** Some input has a non-empty witness stack, or the transaction has a CA proof. */
  predicate HasWitness(tx: Transaction)
  {
    (exists i :: 0 <= i < |tx.vin| && tx.vin[i].scriptWitness != []) || HasCAProof(tx)
  }

  /** The scan loops of CTransaction::HasCAProof, with their early returns. */
  method ScanHasCAProof(tx: Transaction) returns (b: bool)
    ensures b == HasCAProof(tx)
  {
    for n := 0 to |tx.vin|
      invariant forall i :: 0 <= i < n ==> !InputHasProof(tx.vin[i])
    {
      if InputHasProof(tx.vin[n]) {
        return true;
      }
    }
    for n := 0 to |tx.vout|
      invariant forall i :: 0 <= i < n ==> !OutputHasProof(tx.vout[i])
    {
      if OutputHasProof(tx.vout[n]) {
        return true;
      }
    }
    return false;
  }

  /** The scan loop of CTransaction::HasWitness, falling back to HasCAProof. */
  method ScanHasWitness(tx: Transaction) returns (b: bool)
    ensures b == HasWitness(tx)
  {
    for i := 0 to |tx.vin|
      invariant forall j :: 0 <= j < i ==> tx.vin[j].scriptWitness == []
    {
      if tx.vin[i].scriptWitness != [] {
        return true;
      }
    }
    b := ScanHasCAProof(tx);
  }

  /** Sum of the output values (CTransaction::GetValueOut without its range check). */
  function GetValueOut(vout: seq<TxOut>): int
  {
    if vout == [] then 0 else GetValueOut(vout[..|vout| - 1]) + vout[|vout| - 1].nValue
  }

  // ---------------------------------------------------------------- ClearWitness

  function ClearedIn(t: TxIn): TxIn
  {
    t.(scriptWitness := [], inflationKeysRangeproof := [], issuanceAmountRangeproof := [])
  }

  function ClearedOut(o: TxOut): TxOut
  {
    o.(rangeproof := [], surjectionproof := [])
  }

  /** The transaction with every witness stack and every proof emptied. */
  function WithoutWitness(tx: Transaction): (r: Transaction)
    ensures |r.vin| == |tx.vin| && |r.vout| == |tx.vout|
    ensures r.nVersion == tx.nVersion && r.nLockTime == tx.nLockTime
    ensures forall i :: 0 <= i < |tx.vin| ==>
      r.vin[i].prevout == tx.vin[i].prevout && r.vin[i].scriptSig == tx.vin[i].scriptSig
      && r.vin[i].nSequence == tx.vin[i].nSequence && r.vin[i].assetIssuance == tx.vin[i].assetIssuance
    ensures forall i :: 0 <= i < |tx.vout| ==>
      r.vout[i].nValue == tx.vout[i].nValue && r.vout[i].scriptPubKey == tx.vout[i].scriptPubKey
      && r.vout[i].flags == tx.vout[i].flags && r.vout[i].confidential == tx.vout[i].confidential
    ensures !HasCAProof(r) && !HasWitness(r)
  {
    tx.(vin := seq(|tx.vin|, i requires 0 <= i < |tx.vin| => ClearedIn(tx.vin[i])),
        vout := seq(|tx.vout|, i requires 0 <= i < |tx.vout| => ClearedOut(tx.vout[i])))
  }

  /** Clearing twice is clearing once. */
  lemma WithoutWitnessIdempotent(tx: Transaction)
    ensures WithoutWitness(WithoutWitness(tx)) == WithoutWitness(tx)
  {
  }

  class MutableTransaction {
    var vin: seq<TxIn>
    var vout: seq<TxOut>
    var nVersion: int
    var nLockTime: uint32

    constructor (tx: Transaction)
      ensures Value() == tx
    {
      vin, vout, nVersion, nLockTime := tx.vin, tx.vout, tx.nVersion, tx.nLockTime;
    }

    function Value(): Transaction
      reads this
    {
      Transaction(vin, vout, nVersion, nLockTime)
    }

    /** Empties every input's witness and proofs, then every output's proofs. */
    method ClearWitness()
      modifies this
      ensures Value() == WithoutWitness(old(Value()))
    {
      for i := 0 to |vin|
        invariant |vin| == |old(vin)| && vout == old(vout)
        invariant nVersion == old(nVersion) && nLockTime == old(nLockTime)
        invariant forall j :: 0 <= j < i ==> vin[j] == ClearedIn(old(vin)[j])
        invariant forall j :: i <= j < |vin| ==> vin[j] == old(vin)[j]
      {
        vin := vin[i := vin[i].(scriptWitness := [])];
        vin := vin[i := vin[i].(inflationKeysRangeproof := [])];
        vin := vin[i := vin[i].(issuanceAmountRangeproof := [])];
      }
      for i := 0 to |vout|
        invariant |vin| == |old(vin)| && |vout| == |old(vout)|
        invariant nVersion == old(nVersion) && nLockTime == old(nLockTime)
        invariant forall j :: 0 <= j < |vin| ==> vin[j] == ClearedIn(old(vin)[j])
        invariant forall j :: 0 <= j < i ==> vout[j] == ClearedOut(old(vout)[j])
        invariant forall j :: i <= j < |vout| ==> vout[j] == old(vout)[j]
      {
        vout := vout[i := vout[i].(rangeproof := [])];
        vout := vout[i := vout[i].(surjectionproof := [])];
      }
    }
  }

  // ---------------------------------------------------------------- issuance flag packing

  /* The index is an unsigned 32-bit number; the bit operations on it are
     written as arithmetic: `n & OUTPOINT_INDEX_MASK` is `n % 2^31`,
     `n & OUTPOINT_ISSUANCE_FLAG != 0` is `n >= 2^31`, `n & ~MASK == 0` is
     `n < 2^31`, and OR-ing in the flag sets bit 31. */

  function MaskIndex(n: uint32): (r: uint32)
    ensures r < OUTPOINT_ISSUANCE_FLAG
    ensures n < OUTPOINT_ISSUANCE_FLAG ==> r == n
  {
    n % OUTPOINT_ISSUANCE_FLAG
  }

  predicate IssuanceBitSet(n: uint32)
  {
    n >= OUTPOINT_ISSUANCE_FLAG
  }

  function SetIssuanceBit(n: uint32): (r: uint32)
    ensures IssuanceBitSet(r) && MaskIndex(r) == MaskIndex(n)
  {
    if IssuanceBitSet(n) then n else n + OUTPOINT_ISSUANCE_FLAG
  }

  /** Encoding asserts that an index other than NULL_INDEX has bit 31 clear. */
  predicate PrevoutEncodable(o: OutPoint)
  {
    o.n == NULL_INDEX || o.n < OUTPOINT_ISSUANCE_FLAG
  }

  /** The outpoint CTxIn writes in the extended format: NULL_INDEX unchanged and
      without issuance; any other index masked, with the issuance flag set
      when an issuance is present. The second component is fHasAssetIssuance. */
  function EncodePrevout(prevout: OutPoint, issuance: AssetIssuance): (r: (OutPoint, bool))
    requires PrevoutEncodable(prevout)
    ensures r.0.hash == prevout.hash
    ensures r.1 <==> prevout.n != NULL_INDEX && !issuance.NullIssuance?
    ensures prevout.n == NULL_INDEX ==> r.0 == prevout
    ensures prevout.n != NULL_INDEX ==> MaskIndex(r.0.n) == prevout.n && (IssuanceBitSet(r.0.n) <==> r.1)
  {
    if prevout.n == NULL_INDEX then (prevout, false)
    else
      var has := !issuance.NullIssuance?;
      var n := MaskIndex(prevout.n);
      (OutPoint(prevout.hash, if has then SetIssuanceBit(n) else n), has)
  }

  /** The read side: NULL_INDEX stays as it is without issuance; otherwise bit 31
      says whether an issuance follows and is masked off the index. */
  function DecodePrevout(outpoint: OutPoint): (r: (OutPoint, bool))
    ensures r.0.hash == outpoint.hash
    ensures r.0.n == NULL_INDEX || r.0.n < OUTPOINT_ISSUANCE_FLAG
    ensures r.1 ==> r.0.n < OUTPOINT_ISSUANCE_FLAG
    ensures outpoint.n != NULL_INDEX ==> r.0.n == MaskIndex(outpoint.n) && (r.1 <==> IssuanceBitSet(outpoint.n))
  {
    if outpoint.n == NULL_INDEX then (outpoint, false)
    else (OutPoint(outpoint.hash, MaskIndex(outpoint.n)), IssuanceBitSet(outpoint.n))
  }

  /** Decoding an encoded outpoint gives back the outpoint and whether an
      issuance follows it, for every index but 0x7fffffff. */
  lemma PrevoutRoundTrip(prevout: OutPoint, issuance: AssetIssuance)
    requires PrevoutEncodable(prevout) && prevout.n != OUTPOINT_INDEX_MASK
    ensures DecodePrevout(EncodePrevout(prevout, issuance).0)
      == (prevout, prevout.n != NULL_INDEX && !issuance.NullIssuance?)
    ensures EncodePrevout(prevout, issuance).1 == (prevout.n != NULL_INDEX && !issuance.NullIssuance?)
  {
  }

  /** Index 0x7fffffff with an issuance is written as NULL_INDEX, which the
      reader takes for a coinbase-style outpoint without issuance. */
  lemma IssuanceIndexCollision(hash: uint256, content: seq<byte>)
    ensures EncodePrevout(OutPoint(hash, OUTPOINT_INDEX_MASK), Issuance(content)) == (OutPoint(hash, NULL_INDEX), true)
    ensures DecodePrevout(OutPoint(hash, NULL_INDEX)) == (OutPoint(hash, NULL_INDEX), false)
  {
  }

  // ---------------------------------------------------------------- serialisation

  datatype TxItem =
    | VersionItem(version: int)
    | CountItem(count: nat)
    | FlagsItem(flags: byte)
    | OutPointItem(outpoint: OutPoint)
    | ScriptItem(script: Script)
    | U32Item(u: uint32)
    | IssuanceItem(issuance: AssetIssuance)
    | AmountItem(amount: int)
    | ByteItem(b: byte)
    | ConfidentialItem(conf: Confidential)
    | StackItem(stack: seq<seq<byte>>)
    | ProofItem(proof: seq<byte>)

  datatype StreamError = EndOfData | SuperfluousIssuance | UnknownOptionalData

  /** Reading past the end, or finding an item of another kind, throws. */
  function Next(items: seq<TxItem>): Result<(TxItem, seq<TxItem>), StreamError>
  {
    if items == [] then Err(EndOfData) else Ok((items[0], items[1..]))
  }

  predicate FlagBit0(flags: byte) { flags % 2 == 1 }
  predicate FlagBit1(flags: byte) { (flags / 2) % 2 == 1 }

  /** The optional-data flags SerializeTransaction selects. */
  function TxFlags(tx: Transaction, allowWitness: bool): (flags: byte)
    ensures FlagBit0(flags) <==> allowWitness && HasWitness(tx)
    ensures FlagBit1(flags) <==> allowWitness && IsVersionCA(tx)
    ensures flags <= 3
    ensures !allowWitness ==> flags == 0
  {
    (if allowWitness && HasWitness(tx) then 1 else 0) + (if allowWitness && IsVersionCA(tx) then 2 else 0)
  }

  predicate Encodable(tx: Transaction)
  {
    IsVersionCA(tx) ==> forall i :: 0 <= i < |tx.vin| ==> PrevoutEncodable(tx.vin[i].prevout)
  }

  function TxInItems(t: TxIn, extra: bool): seq<TxItem>
    requires extra ==> PrevoutEncodable(t.prevout)
  {
    if !extra then [OutPointItem(t.prevout), ScriptItem(t.scriptSig), U32Item(t.nSequence)]
    else
      var (outpoint, has) := EncodePrevout(t.prevout, t.assetIssuance);
      [OutPointItem(outpoint), ScriptItem(t.scriptSig), U32Item(t.nSequence)]
      + (if has then [IssuanceItem(t.assetIssuance)] else [])
  }

  function InputsItems(v: seq<TxIn>, extra: bool): seq<TxItem>
    requires extra ==> forall i :: 0 <= i < |v| ==> PrevoutEncodable(v[i].prevout)
  {
    if v == [] then [] else TxInItems(v[0], extra) + InputsItems(v[1..], extra)
  }

  function TxOutItems(o: TxOut, extra: bool): seq<TxItem>
  {
    [AmountItem(o.nValue), ScriptItem(o.scriptPubKey)]
    + (if extra then [ByteItem(o.flags)] + (if o.flags == 1 then [ConfidentialItem(o.confidential)] else []) else [])
  }

  function OutputsItems(v: seq<TxOut>, extra: bool): seq<TxItem>
  {
    if v == [] then [] else TxOutItems(v[0], extra) + OutputsItems(v[1..], extra)
  }

  function WitnessItems(v: seq<TxIn>): seq<TxItem>
  {
    if v == [] then [] else [StackItem(v[0].scriptWitness)] + WitnessItems(v[1..])
  }

  function InputProofItems(v: seq<TxIn>): seq<TxItem>
  {
    if v == [] then []
    else [ProofItem(v[0].issuanceAmountRangeproof), ProofItem(v[0].inflationKeysRangeproof)] + InputProofItems(v[1..])
  }

  function OutputProofItems(v: seq<TxOut>): seq<TxItem>
  {
    if v == [] then []
    else [ProofItem(v[0].surjectionproof), ProofItem(v[0].rangeproof)] + OutputProofItems(v[1..])
  }

  /** A vector: its length, then its elements. */
  function InputVectorItems(vin: seq<TxIn>, extra: bool): seq<TxItem>
    requires extra ==> forall i :: 0 <= i < |vin| ==> PrevoutEncodable(vin[i].prevout)
  {
    [CountItem(|vin|)] + InputsItems(vin, extra)
  }

  function OutputVectorItems(vout: seq<TxOut>, extra: bool): seq<TxItem>
  {
    [CountItem(|vout|)] + OutputsItems(vout, extra)
  }

  /** The dummy empty vin and the flags byte (only when some flag is set),
      the inputs and the outputs. */
  function BodyItems(vin: seq<TxIn>, vout: seq<TxOut>, extra: bool, flags: byte): seq<TxItem>
    requires extra ==> forall i :: 0 <= i < |vin| ==> PrevoutEncodable(vin[i].prevout)
  {
    (if flags != 0 then [CountItem(0), FlagsItem(flags)] else [])
    + InputVectorItems(vin, extra) + OutputVectorItems(vout, extra)
  }

  /** The witnesses (flag bit 0), the proofs (flag bit 1), then nLockTime. */
  function TailItems(vin: seq<TxIn>, vout: seq<TxOut>, flags: byte, lockTime: uint32): seq<TxItem>
  {
    (if FlagBit0(flags) then WitnessItems(vin) else [])
    + ((if FlagBit1(flags) then InputProofItems(vin) + OutputProofItems(vout) else []) + [U32Item(lockTime)])
  }

  /** SerializeTransaction: nVersion, then the body in the basic or extended
      format, then the optional witness data and nLockTime. */
  function SerializeTransaction(tx: Transaction, allowWitness: bool): seq<TxItem>
    requires Encodable(tx)
  {
    var flags := TxFlags(tx, allowWitness);
    [VersionItem(tx.nVersion)] + BodyItems(tx.vin, tx.vout, IsVersionCA(tx), flags)
    + TailItems(tx.vin, tx.vout, flags, tx.nLockTime)
  }

  /** The layout SerializeTransaction produces: the version first, the dummy
      empty vin and the flags byte exactly when some flag is set, then the
      real vin's length; nLockTime last. */
  lemma SerializeLayout(tx: Transaction, allowWitness: bool)
    requires Encodable(tx)
    ensures var s := SerializeTransaction(tx, allowWitness);
      var flags := TxFlags(tx, allowWitness);
      && |s| >= 4 && s[0] == VersionItem(tx.nVersion)
      && (flags != 0 ==> s[1] == CountItem(0) && s[2] == FlagsItem(flags) && s[3] == CountItem(|tx.vin|))
      && (flags == 0 ==> s[1] == CountItem(|tx.vin|))
      && s[|s| - 1] == U32Item(tx.nLockTime)
  {
    var flags := TxFlags(tx, allowWitness);
    var extra := IsVersionCA(tx);
    var head := if flags != 0 then [CountItem(0), FlagsItem(flags)] else [];
    var ins := InputVectorItems(tx.vin, extra);
    var outs := OutputVectorItems(tx.vout, extra);
    var tail := TailItems(tx.vin, tx.vout, flags, tx.nLockTime);
    var body := BodyItems(tx.vin, tx.vout, extra, flags);
    var front := [VersionItem(tx.nVersion)] + body;
    var s := SerializeTransaction(tx, allowWitness);
    assert s == front + tail;
    assert body == (head + ins) + outs;
    assert ins[0] == CountItem(|tx.vin|);
    assert (head + ins)[|head|] == CountItem(|tx.vin|);
    assert body[|head|] == CountItem(|tx.vin|);
    assert front[|head| + 1] == CountItem(|tx.vin|);
    assert flags != 0 ==> front[1] == CountItem(0) && front[2] == FlagsItem(flags);
    assert tail[|tail| - 1] == U32Item(tx.nLockTime);
    assert s[|s| - 1] == tail[|tail| - 1];
  }

  /** CTxIn::Unserialize into a default-constructed input. */
  function ReadTxIn(items: seq<TxItem>, extra: bool): Result<(TxIn, seq<TxItem>), StreamError>
  {
    if |items| < 3 then Err(EndOfData)
    else if !items[0].OutPointItem? || !items[1].ScriptItem? || !items[2].U32Item? then Err(EndOfData)
    else
      var rest := items[3..];
      var (prevout, has) := if extra then DecodePrevout(items[0].outpoint) else (items[0].outpoint, false);
      var t := DefaultTxIn.(prevout := prevout, scriptSig := items[1].script, nSequence := items[2].u);
      if !has then Ok((t, rest))
      else if rest == [] || !rest[0].IssuanceItem? then Err(EndOfData)
      else if rest[0].issuance.NullIssuance? then Err(SuperfluousIssuance)
      else Ok((t.(assetIssuance := rest[0].issuance), rest[1..]))
  }

  function ReadInputs(items: seq<TxItem>, count: nat, extra: bool): Result<(seq<TxIn>, seq<TxItem>), StreamError>
    decreases count
  {
    if count == 0 then Ok(([], items))
    else
      var first := ReadTxIn(items, extra);
      if first.Err? then Err(first.error)
      else
        var more := ReadInputs(first.value.1, count - 1, extra);
        if more.Err? then Err(more.error) else Ok(([first.value.0] + more.value.0, more.value.1))
  }

  /** `s >> vin`: a count, then that many inputs. */
  function ReadInputVector(items: seq<TxItem>, extra: bool): Result<(seq<TxIn>, seq<TxItem>), StreamError>
  {
    if items == [] || !items[0].CountItem? then Err(EndOfData)
    else ReadInputs(items[1..], items[0].count, extra)
  }

  /** CTxOut::Unserialize into a default-constructed output. */
  function ReadTxOut(items: seq<TxItem>, extra: bool): Result<(TxOut, seq<TxItem>), StreamError>
  {
    if |items| < 2 || !items[0].AmountItem? || !items[1].ScriptItem? then Err(EndOfData)
    else
      var o := DefaultTxOut.(nValue := items[0].amount, scriptPubKey := items[1].script);
      var rest := items[2..];
      if !extra then Ok((o, rest))
      else if rest == [] || !rest[0].ByteItem? then Err(EndOfData)
      else if rest[0].b != 1 then Ok((o.(flags := rest[0].b), rest[1..]))
      else if |rest| < 2 || !rest[1].ConfidentialItem? then Err(EndOfData)
      else Ok((o.(flags := 1, confidential := rest[1].conf), rest[2..]))
  }

  function ReadOutputs(items: seq<TxItem>, count: nat, extra: bool): Result<(seq<TxOut>, seq<TxItem>), StreamError>
    decreases count
  {
    if count == 0 then Ok(([], items))
    else
      var first := ReadTxOut(items, extra);
      if first.Err? then Err(first.error)
      else
        var more := ReadOutputs(first.value.1, count - 1, extra);
        if more.Err? then Err(more.error) else Ok(([first.value.0] + more.value.0, more.value.1))
  }

  function ReadOutputVector(items: seq<TxItem>, extra: bool): Result<(seq<TxOut>, seq<TxItem>), StreamError>
  {
    if items == [] || !items[0].CountItem? then Err(EndOfData)
    else ReadOutputs(items[1..], items[0].count, extra)
  }

  /** Reads one witness stack per input, in order. */
  function ReadWitnesses(items: seq<TxItem>, vin: seq<TxIn>): Result<(seq<TxIn>, seq<TxItem>), StreamError>
  {
    if vin == [] then Ok(([], items))
    else if items == [] || !items[0].StackItem? then Err(EndOfData)
    else
      var more := ReadWitnesses(items[1..], vin[1..]);
      if more.Err? then Err(more.error)
      else Ok(([vin[0].(scriptWitness := items[0].stack)] + more.value.0, more.value.1))
  }

  function ReadInputProofs(items: seq<TxItem>, vin: seq<TxIn>): Result<(seq<TxIn>, seq<TxItem>), StreamError>
  {
    if vin == [] then Ok(([], items))
    else if |items| < 2 || !items[0].ProofItem? || !items[1].ProofItem? then Err(EndOfData)
    else
      var more := ReadInputProofs(items[2..], vin[1..]);
      if more.Err? then Err(more.error)
      else Ok(([vin[0].(issuanceAmountRangeproof := items[0].proof, inflationKeysRangeproof := items[1].proof)]
               + more.value.0, more.value.1))
  }

  function ReadOutputProofs(items: seq<TxItem>, vout: seq<TxOut>): Result<(seq<TxOut>, seq<TxItem>), StreamError>
  {
    if vout == [] then Ok(([], items))
    else if |items| < 2 || !items[0].ProofItem? || !items[1].ProofItem? then Err(EndOfData)
    else
      var more := ReadOutputProofs(items[2..], vout[1..]);
      if more.Err? then Err(more.error)
      else Ok(([vout[0].(surjectionproof := items[0].proof, rangeproof := items[1].proof)] + more.value.0, more.value.1))
  }

  /** The vin/vout/flags part of UnserializeTransaction: an empty vin read while
      witnesses are allowed is the dummy, and a flags byte follows it; with a
      zero flags byte nothing more is read and vout stays empty. */
  function ReadBody(items: seq<TxItem>, extra: bool, allowWitness: bool)
    : Result<(seq<TxIn>, seq<TxOut>, byte, seq<TxItem>), StreamError>
  {
    var first := ReadInputVector(items, extra);
    if first.Err? then Err(first.error)
    else
      var (vin, rest) := first.value;
      if |vin| == 0 && allowWitness then
        if rest == [] || !rest[0].FlagsItem? then Err(EndOfData)
        else if rest[0].flags == 0 then Ok(([], [], 0, rest[1..]))
        else
          var ins := ReadInputVector(rest[1..], extra);
          if ins.Err? then Err(ins.error)
          else
            var outs := ReadOutputVector(ins.value.1, extra);
            if outs.Err? then Err(outs.error) else Ok((ins.value.0, outs.value.0, rest[0].flags, outs.value.1))
      else
        var outs := ReadOutputVector(rest, extra);
        if outs.Err? then Err(outs.error) else Ok((vin, outs.value.0, 0, outs.value.1))
  }

  /** The range proofs of every input, then the proofs of every output. */
  function ReadProofs(items: seq<TxItem>, vin: seq<TxIn>, vout: seq<TxOut>)
    : Result<(seq<TxIn>, seq<TxOut>, seq<TxItem>), StreamError>
  {
    var ins := ReadInputProofs(items, vin);
    if ins.Err? then Err(ins.error)
    else
      var outs := ReadOutputProofs(ins.value.1, vout);
      if outs.Err? then Err(outs.error) else Ok((ins.value.0, outs.value.0, outs.value.1))
  }

  /** The witness and proof part, then the check on unknown flags and nLockTime. */
  function ReadTail(items: seq<TxItem>, vin: seq<TxIn>, vout: seq<TxOut>, flags: byte, version: int, allowWitness: bool)
    : Result<(Transaction, seq<TxItem>), StreamError>
  {
    var w := if FlagBit0(flags) && allowWitness then ReadWitnesses(items, vin) else Ok((vin, items));
    if w.Err? then Err(w.error)
    else
      var p := if FlagBit1(flags) && allowWitness then ReadProofs(w.value.1, w.value.0, vout)
               else Ok((w.value.0, vout, w.value.1));
      if p.Err? then Err(p.error)
      else if flags > 3 then Err(UnknownOptionalData)
      else
        var (vin2, vout2, rest) := p.value;
        if rest == [] || !rest[0].U32Item? then Err(EndOfData)
        else Ok((Transaction(vin2, vout2, version, rest[0].u), rest[1..]))
  }

  function UnserializeTransaction(items: seq<TxItem>, allowWitness: bool): Result<(Transaction, seq<TxItem>), StreamError>
  {
    if items == [] || !items[0].VersionItem? then Err(EndOfData)
    else
      var version := items[0].version;
      var body := ReadBody(items[1..], version == CONFIDENTIAL_VERSION, allowWitness);
      if body.Err? then Err(body.error)
      else
        var (vin, vout, flags, rest) := body.value;
        ReadTail(rest, vin, vout, flags, version, allowWitness)
  }

  /** A flags byte above 3 is refused, whatever follows it. */
  lemma UnknownFlagsRejected(version: int, flags: byte, tail: seq<TxItem>)
    requires flags > 3
    ensures UnserializeTransaction([VersionItem(version), CountItem(0), FlagsItem(flags)] + tail, true).Err?
  {
    var items := [VersionItem(version), CountItem(0), FlagsItem(flags)] + tail;
    assert items[1..] == [CountItem(0), FlagsItem(flags)] + tail;
    assert items[1..][1..] == [FlagsItem(flags)] + tail;
    assert ReadInputVector(items[1..], version == CONFIDENTIAL_VERSION) == Ok(([], [FlagsItem(flags)] + tail));
  }

  // ---------------------------------------------------------------- read-back

  /** What reading an input back yields: the issuance survives only in the
      extended format and with an index other than NULL_INDEX; the witness
      and the proofs only when they were written. */
  function ReadBackIn(t: TxIn, extra: bool, withWitness: bool, proofs: bool): TxIn
  {
    TxIn(t.prevout, t.scriptSig, t.nSequence,
         if withWitness then t.scriptWitness else [],
         if extra && t.prevout.n != NULL_INDEX then t.assetIssuance else NullIssuance,
         if proofs then t.issuanceAmountRangeproof else [],
         if proofs then t.inflationKeysRangeproof else [])
  }

  function ReadBackIns(v: seq<TxIn>, extra: bool, withWitness: bool, proofs: bool): (r: seq<TxIn>)
    ensures |r| == |v| && forall i :: 0 <= i < |v| ==> r[i] == ReadBackIn(v[i], extra, withWitness, proofs)
  {
    if v == [] then [] else [ReadBackIn(v[0], extra, withWitness, proofs)] + ReadBackIns(v[1..], extra, withWitness, proofs)
  }

  /** An output read back: the flags byte only in the extended format, the
      confidential fields only when flags == 1 there, proofs when written. */
  function ReadBackOut(o: TxOut, extra: bool, proofs: bool): TxOut
  {
    TxOut(o.nValue, o.scriptPubKey,
          if extra then o.flags else 0,
          if extra && o.flags == 1 then o.confidential else NullConfidential,
          if proofs then o.surjectionproof else [],
          if proofs then o.rangeproof else [])
  }

  function ReadBackOuts(v: seq<TxOut>, extra: bool, proofs: bool): (r: seq<TxOut>)
    ensures |r| == |v| && forall i :: 0 <= i < |v| ==> r[i] == ReadBackOut(v[i], extra, proofs)
  {
    if v == [] then [] else [ReadBackOut(v[0], extra, proofs)] + ReadBackOuts(v[1..], extra, proofs)
  }

  function ReadBack(tx: Transaction, allowWitness: bool): Transaction
  {
    var extra := IsVersionCA(tx);
    var flags := TxFlags(tx, allowWitness);
    Transaction(ReadBackIns(tx.vin, extra, FlagBit0(flags), FlagBit1(flags)),
                ReadBackOuts(tx.vout, extra, FlagBit1(flags)), tx.nVersion, tx.nLockTime)
  }

  /** The transactions whose serialisation reads back: encodable indices other
      than 0x7fffffff, and, when witnesses are allowed, either some input or
      some flag (otherwise the empty vin is taken for the dummy). */
  predicate RoundTrips(tx: Transaction, allowWitness: bool)
  {
    && Encodable(tx)
    && (IsVersionCA(tx) ==> forall i :: 0 <= i < |tx.vin| ==> tx.vin[i].prevout.n != OUTPOINT_INDEX_MASK)
    && (allowWitness ==> |tx.vin| > 0 || TxFlags(tx, allowWitness) != 0)
  }

  lemma ReadTxInOf(t: TxIn, extra: bool, rest: seq<TxItem>)
    requires extra ==> PrevoutEncodable(t.prevout) && t.prevout.n != OUTPOINT_INDEX_MASK
    ensures ReadTxIn(TxInItems(t, extra) + rest, extra) == Ok((ReadBackIn(t, extra, false, false), rest))
  {
    var items := TxInItems(t, extra) + rest;
    if extra {
      PrevoutRoundTrip(t.prevout, t.assetIssuance);
      assert items[3..] == (if EncodePrevout(t.prevout, t.assetIssuance).1 then [IssuanceItem(t.assetIssuance)] else []) + rest;
    } else {
      assert items[3..] == rest;
    }
  }

  lemma {:induction false} ReadInputsOf(v: seq<TxIn>, extra: bool, rest: seq<TxItem>)
    requires extra ==> forall i :: 0 <= i < |v| ==> PrevoutEncodable(v[i].prevout) && v[i].prevout.n != OUTPOINT_INDEX_MASK
    ensures ReadInputs(InputsItems(v, extra) + rest, |v|, extra) == Ok((ReadBackIns(v, extra, false, false), rest))
  {
    if v == [] {
      assert InputsItems(v, extra) + rest == rest;
    } else {
      var items := InputsItems(v, extra) + rest;
      var tail := InputsItems(v[1..], extra) + rest;
      assert items == TxInItems(v[0], extra) + tail;
      ReadTxInOf(v[0], extra, tail);
      ReadInputsOf(v[1..], extra, rest);
      var first := ReadTxIn(items, extra);
      var more := ReadInputs(first.value.1, |v| - 1, extra);
      assert ReadInputs(items, |v|, extra) == Ok(([first.value.0] + more.value.0, more.value.1));
    }
  }

  lemma ReadTxOutOf(o: TxOut, extra: bool, rest: seq<TxItem>)
    ensures ReadTxOut(TxOutItems(o, extra) + rest, extra) == Ok((ReadBackOut(o, extra, false), rest))
  {
    var items := TxOutItems(o, extra) + rest;
    if extra {
      assert items[2..] == [ByteItem(o.flags)] + (if o.flags == 1 then [ConfidentialItem(o.confidential)] else []) + rest;
      assert items[2..][1..] == (if o.flags == 1 then [ConfidentialItem(o.confidential)] else []) + rest;
    } else {
      assert items[2..] == rest;
    }
  }

  lemma {:induction false} ReadOutputsOf(v: seq<TxOut>, extra: bool, rest: seq<TxItem>)
    ensures ReadOutputs(OutputsItems(v, extra) + rest, |v|, extra) == Ok((ReadBackOuts(v, extra, false), rest))
  {
    if v == [] {
      assert OutputsItems(v, extra) + rest == rest;
    } else {
      var items := OutputsItems(v, extra) + rest;
      var tail := OutputsItems(v[1..], extra) + rest;
      assert items == TxOutItems(v[0], extra) + tail;
      ReadTxOutOf(v[0], extra, tail);
      ReadOutputsOf(v[1..], extra, rest);
      var first := ReadTxOut(items, extra);
      var more := ReadOutputs(first.value.1, |v| - 1, extra);
      assert ReadOutputs(items, |v|, extra) == Ok(([first.value.0] + more.value.0, more.value.1));
    }
  }

  lemma {:induction false} ReadWitnessesOf(v: seq<TxIn>, extra: bool, rest: seq<TxItem>)
    ensures ReadWitnesses(WitnessItems(v) + rest, ReadBackIns(v, extra, false, false))
      == Ok((ReadBackIns(v, extra, true, false), rest))
  {
    if v == [] {
      assert WitnessItems(v) + rest == rest;
    } else {
      assert (WitnessItems(v) + rest)[1..] == WitnessItems(v[1..]) + rest;
      assert ReadBackIns(v, extra, false, false)[1..] == ReadBackIns(v[1..], extra, false, false);
      ReadWitnessesOf(v[1..], extra, rest);
    }
  }

  lemma {:induction false} ReadInputProofsOf(v: seq<TxIn>, extra: bool, withWitness: bool, rest: seq<TxItem>)
    ensures ReadInputProofs(InputProofItems(v) + rest, ReadBackIns(v, extra, withWitness, false))
      == Ok((ReadBackIns(v, extra, withWitness, true), rest))
  {
    if v == [] {
      assert InputProofItems(v) + rest == rest;
    } else {
      assert (InputProofItems(v) + rest)[2..] == InputProofItems(v[1..]) + rest;
      assert ReadBackIns(v, extra, withWitness, false)[1..] == ReadBackIns(v[1..], extra, withWitness, false);
      ReadInputProofsOf(v[1..], extra, withWitness, rest);
    }
  }

  lemma {:induction false} ReadOutputProofsOf(v: seq<TxOut>, extra: bool, rest: seq<TxItem>)
    ensures ReadOutputProofs(OutputProofItems(v) + rest, ReadBackOuts(v, extra, false))
      == Ok((ReadBackOuts(v, extra, true), rest))
  {
    if v == [] {
      assert OutputProofItems(v) + rest == rest;
    } else {
      assert (OutputProofItems(v) + rest)[2..] == OutputProofItems(v[1..]) + rest;
      assert ReadBackOuts(v, extra, false)[1..] == ReadBackOuts(v[1..], extra, false);
      ReadOutputProofsOf(v[1..], extra, rest);
    }
  }

  lemma ReadInputVectorOf(vin: seq<TxIn>, extra: bool, rest: seq<TxItem>)
    requires extra ==> forall i :: 0 <= i < |vin| ==> PrevoutEncodable(vin[i].prevout) && vin[i].prevout.n != OUTPOINT_INDEX_MASK
    ensures ReadInputVector(InputVectorItems(vin, extra) + rest, extra) == Ok((ReadBackIns(vin, extra, false, false), rest))
  {
    assert (InputVectorItems(vin, extra) + rest)[1..] == InputsItems(vin, extra) + rest;
    ReadInputsOf(vin, extra, rest);
  }

  lemma ReadOutputVectorOf(vout: seq<TxOut>, extra: bool, rest: seq<TxItem>)
    ensures ReadOutputVector(OutputVectorItems(vout, extra) + rest, extra) == Ok((ReadBackOuts(vout, extra, false), rest))
  {
    assert (OutputVectorItems(vout, extra) + rest)[1..] == OutputsItems(vout, extra) + rest;
    ReadOutputsOf(vout, extra, rest);
  }

  lemma ReadPlainBodyOf(vin: seq<TxIn>, vout: seq<TxOut>, extra: bool, allowWitness: bool, tail: seq<TxItem>)
    requires extra ==> forall i :: 0 <= i < |vin| ==> PrevoutEncodable(vin[i].prevout) && vin[i].prevout.n != OUTPOINT_INDEX_MASK
    requires allowWitness ==> |vin| > 0
    ensures ReadBody(InputVectorItems(vin, extra) + (OutputVectorItems(vout, extra) + tail), extra, allowWitness)
            == Ok((ReadBackIns(vin, extra, false, false), ReadBackOuts(vout, extra, false), 0, tail))
  {
    ReadInputVectorOf(vin, extra, OutputVectorItems(vout, extra) + tail);
    ReadOutputVectorOf(vout, extra, tail);
  }

  lemma ReadFlaggedBodyOf(vin: seq<TxIn>, vout: seq<TxOut>, extra: bool, flags: byte, tail: seq<TxItem>)
    requires extra ==> forall i :: 0 <= i < |vin| ==> PrevoutEncodable(vin[i].prevout) && vin[i].prevout.n != OUTPOINT_INDEX_MASK
    requires flags != 0
    ensures ReadBody([CountItem(0), FlagsItem(flags)] + (InputVectorItems(vin, extra) + (OutputVectorItems(vout, extra) + tail)), extra, true)
            == Ok((ReadBackIns(vin, extra, false, false), ReadBackOuts(vout, extra, false), flags, tail))
  {
    var outs := OutputVectorItems(vout, extra) + tail;
    var ins := InputVectorItems(vin, extra) + outs;
    ReadInputVectorOf(vin, extra, outs);
    ReadOutputVectorOf(vout, extra, tail);
    var flagged := [FlagsItem(flags)] + ins;
    assert [CountItem(0), FlagsItem(flags)] + ins == [CountItem(0)] + flagged;
    assert ReadInputVector([CountItem(0)] + flagged, extra) == Ok(([], flagged));
    assert flagged[1..] == ins;
  }

  lemma ReadBodyOf(vin: seq<TxIn>, vout: seq<TxOut>, extra: bool, flags: byte, allowWitness: bool, tail: seq<TxItem>)
    requires extra ==> forall i :: 0 <= i < |vin| ==> PrevoutEncodable(vin[i].prevout) && vin[i].prevout.n != OUTPOINT_INDEX_MASK
    requires !allowWitness ==> flags == 0
    requires allowWitness && flags == 0 ==> |vin| > 0
    ensures ReadBody(BodyItems(vin, vout, extra, flags) + tail, extra, allowWitness)
            == Ok((ReadBackIns(vin, extra, false, false), ReadBackOuts(vout, extra, false), flags, tail))
  {
    var rest := InputVectorItems(vin, extra) + (OutputVectorItems(vout, extra) + tail);
    if flags != 0 {
      assert BodyItems(vin, vout, extra, flags) + tail == [CountItem(0), FlagsItem(flags)] + rest;
      ReadFlaggedBodyOf(vin, vout, extra, flags, tail);
    } else {
      assert BodyItems(vin, vout, extra, flags) + tail == rest;
      ReadPlainBodyOf(vin, vout, extra, allowWitness, tail);
    }
  }

  lemma ReadProofsOf(vin: seq<TxIn>, vout: seq<TxOut>, extra: bool, withWitness: bool, rest: seq<TxItem>)
    ensures ReadProofs(InputProofItems(vin) + OutputProofItems(vout) + rest,
                       ReadBackIns(vin, extra, withWitness, false), ReadBackOuts(vout, extra, false))
      == Ok((ReadBackIns(vin, extra, withWitness, true), ReadBackOuts(vout, extra, true), rest))
  {
    var mid := OutputProofItems(vout) + rest;
    assert InputProofItems(vin) + OutputProofItems(vout) + rest == InputProofItems(vin) + mid;
    ReadInputProofsOf(vin, extra, withWitness, mid);
    ReadOutputProofsOf(vout, extra, rest);
  }

  lemma WitnessStepOf(vin: seq<TxIn>, extra: bool, withWitness: bool, rest: seq<TxItem>)
    ensures var items := (if withWitness then WitnessItems(vin) else []) + rest;
            var vin0 := ReadBackIns(vin, extra, false, false);
            (if withWitness then ReadWitnesses(items, vin0) else Ok((vin0, items)))
            == Ok((ReadBackIns(vin, extra, withWitness, false), rest))
  {
    if withWitness {
      ReadWitnessesOf(vin, extra, rest);
    } else {
      assert ([] + rest) == rest;
    }
  }

  lemma ProofStepOf(vin: seq<TxIn>, vout: seq<TxOut>, extra: bool, withWitness: bool, withProofs: bool, rest: seq<TxItem>)
    ensures var items := (if withProofs then InputProofItems(vin) + OutputProofItems(vout) else []) + rest;
            var vin1 := ReadBackIns(vin, extra, withWitness, false);
            var vout0 := ReadBackOuts(vout, extra, false);
            (if withProofs then ReadProofs(items, vin1, vout0) else Ok((vin1, vout0, items)))
            == Ok((ReadBackIns(vin, extra, withWitness, withProofs), ReadBackOuts(vout, extra, withProofs), rest))
  {
    if withProofs {
      ReadProofsOf(vin, vout, extra, withWitness, rest);
    } else {
      assert ([] + rest) == rest;
    }
  }

  lemma ReadTailOf(vin: seq<TxIn>, vout: seq<TxOut>, extra: bool, flags: byte, version: int, lockTime: uint32,
                   allowWitness: bool, rest: seq<TxItem>)
    requires flags <= 3 && (!allowWitness ==> flags == 0)
    ensures ReadTail(TailItems(vin, vout, flags, lockTime) + rest, ReadBackIns(vin, extra, false, false),
                     ReadBackOuts(vout, extra, false), flags, version, allowWitness)
            == Ok((Transaction(ReadBackIns(vin, extra, FlagBit0(flags), FlagBit1(flags)),
                               ReadBackOuts(vout, extra, FlagBit1(flags)), version, lockTime), rest))
  {
    var w := FlagBit0(flags);
    var pr := FlagBit1(flags);
    var last := [U32Item(lockTime)] + rest;
    var afterWit := (if pr then InputProofItems(vin) + OutputProofItems(vout) else []) + last;
    var items := TailItems(vin, vout, flags, lockTime) + rest;
    TailItemsSplit(vin, vout, flags, lockTime, rest);
    FlagsAllowed(flags, allowWitness);
    WitnessStepOf(vin, extra, w, afterWit);
    ProofStepOf(vin, vout, extra, w, pr, last);
    ReadTailShape(items, ReadBackIns(vin, extra, false, false), ReadBackOuts(vout, extra, false), flags, version,
                  allowWitness, ReadBackIns(vin, extra, w, false), afterWit,
                  ReadBackIns(vin, extra, w, pr), ReadBackOuts(vout, extra, pr), lockTime, rest);
  }

  lemma TailItemsSplit(vin: seq<TxIn>, vout: seq<TxOut>, flags: byte, lockTime: uint32, rest: seq<TxItem>)
    ensures TailItems(vin, vout, flags, lockTime) + rest
         == (if FlagBit0(flags) then WitnessItems(vin) else [])
            + ((if FlagBit1(flags) then InputProofItems(vin) + OutputProofItems(vout) else []) + ([U32Item(lockTime)] + rest))
  {
  }

  lemma FlagsAllowed(flags: byte, allowWitness: bool)
    requires !allowWitness ==> flags == 0
    ensures (FlagBit0(flags) && allowWitness) == FlagBit0(flags)
    ensures (FlagBit1(flags) && allowWitness) == FlagBit1(flags)
  {
  }

  /** ReadTail once its witness and proof steps are known. */
  lemma ReadTailShape(items: seq<TxItem>, vin: seq<TxIn>, vout: seq<TxOut>, flags: byte, version: int, allowWitness: bool,
                      vinW: seq<TxIn>, itemsW: seq<TxItem>, vinP: seq<TxIn>, voutP: seq<TxOut>,
                      lockTime: uint32, rest: seq<TxItem>)
    requires (if FlagBit0(flags) && allowWitness then ReadWitnesses(items, vin) else Ok((vin, items))) == Ok((vinW, itemsW))
    requires (if FlagBit1(flags) && allowWitness then ReadProofs(itemsW, vinW, vout) else Ok((vinW, vout, itemsW)))
             == Ok((vinP, voutP, [U32Item(lockTime)] + rest))
    requires flags <= 3
    ensures ReadTail(items, vin, vout, flags, version, allowWitness) == Ok((Transaction(vinP, voutP, version, lockTime), rest))
  {
    assert ([U32Item(lockTime)] + rest)[1..] == rest;
  }


  /** Reading back what SerializeTransaction wrote gives ReadBack(tx) and
      leaves the rest of the stream unread. */
  lemma TransactionRoundTrip(tx: Transaction, allowWitness: bool, rest: seq<TxItem>)
    requires RoundTrips(tx, allowWitness)
    ensures UnserializeTransaction(SerializeTransaction(tx, allowWitness) + rest, allowWitness)
      == Ok((ReadBack(tx, allowWitness), rest))
  {
    var extra := IsVersionCA(tx);
    var flags := TxFlags(tx, allowWitness);
    var tail := TailItems(tx.vin, tx.vout, flags, tx.nLockTime) + rest;
    var body := BodyItems(tx.vin, tx.vout, extra, flags) + tail;
    assert SerializeTransaction(tx, allowWitness) + rest == [VersionItem(tx.nVersion)] + body;
    ReadBodyOf(tx.vin, tx.vout, extra, flags, allowWitness, tail);
    ReadTailOf(tx.vin, tx.vout, extra, flags, tx.nVersion, tx.nLockTime, allowWitness, rest);
    assert ([VersionItem(tx.nVersion)] + body)[1..] == body;
  }

  /** The fields a transaction can hold that its serialisation can carry:
      issuances only in the extended format and on non-null indices, output
      flags and confidential fields likewise, proofs only in the extended format. */
  predicate Canonical(tx: Transaction)
  {
    var extra := IsVersionCA(tx);
    && (forall i :: 0 <= i < |tx.vin| ==>
          !(extra && tx.vin[i].prevout.n != NULL_INDEX) ==> tx.vin[i].assetIssuance == NullIssuance)
    && (forall i :: 0 <= i < |tx.vout| ==> !extra ==> tx.vout[i].flags == 0)
    && (forall i :: 0 <= i < |tx.vout| ==>
          !(extra && tx.vout[i].flags == 1) ==> tx.vout[i].confidential == NullConfidential)
    && (HasCAProof(tx) ==> extra)
  }

  /** With witnesses allowed, a canonical transaction reads back unchanged. */
  lemma CanonicalRoundTrip(tx: Transaction, rest: seq<TxItem>)
    requires RoundTrips(tx, true) && Canonical(tx)
    ensures UnserializeTransaction(SerializeTransaction(tx, true) + rest, true) == Ok((tx, rest))
  {
    TransactionRoundTrip(tx, true, rest);
    var extra := IsVersionCA(tx);
    var flags := TxFlags(tx, true);
    var r := ReadBack(tx, true);
    forall i | 0 <= i < |tx.vin|
      ensures r.vin[i] == tx.vin[i]
    {
      assert r.vin[i] == ReadBackIn(tx.vin[i], extra, FlagBit0(flags), FlagBit1(flags));
      if !HasWitness(tx) {
        assert tx.vin[i].scriptWitness == [];
      }
      if !extra {
        assert !InputHasProof(tx.vin[i]);
      }
    }
    forall i | 0 <= i < |tx.vout|
      ensures r.vout[i] == tx.vout[i]
    {
      assert r.vout[i] == ReadBackOut(tx.vout[i], extra, FlagBit1(flags));
      if !extra {
        assert !OutputHasProof(tx.vout[i]);
      }
    }
    assert r.vin == tx.vin && r.vout == tx.vout;
  }

  /** Without witnesses, a canonical transaction reads back as its
      ClearWitness copy. */
  lemma NoWitnessRoundTrip(tx: Transaction, rest: seq<TxItem>)
    requires RoundTrips(tx, false) && Canonical(tx)
    ensures UnserializeTransaction(SerializeTransaction(tx, false) + rest, false) == Ok((WithoutWitness(tx), rest))
  {
    TransactionRoundTrip(tx, false, rest);
    var extra := IsVersionCA(tx);
    var r := ReadBack(tx, false);
    var c := WithoutWitness(tx);
    forall i | 0 <= i < |tx.vin|
      ensures r.vin[i] == c.vin[i]
    {
      assert r.vin[i] == ReadBackIn(tx.vin[i], extra, false, false);
    }
    forall i | 0 <= i < |tx.vout|
      ensures r.vout[i] == c.vout[i]
    {
      assert r.vout[i] == ReadBackOut(tx.vout[i], extra, false);
    }
    assert r.vin == c.vin && r.vout == c.vout;
  }
}
