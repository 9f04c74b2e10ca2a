/** Actions carried by transactions: binding a key id to another and
    unbinding it. The wire format, signing and verification over an
    uninterpreted recovering signature scheme, and the extraction of a
    signed action from an OP_RETURN output. */
module Actions {
  import opened Basics
  import opened Blob
  import opened Script
  import opened Transaction

  /** CKeyID: a 160-bit key hash. */
  type KeyID = uint160

  /** The plot id derived from a key id. */
  type PlotID = uint64

  type PrivKey = seq<byte>
  type PubKey = seq<byte>

  /** CAction: a variant of CNilAction, CBindAction (from, to) and CUnbindAction (from). */
  datatype Action = Nil | Bind(from: KeyID, to: KeyID) | Unbind(from: KeyID)

  /** The identity an action is signed by and applies to. */
  function From(a: Action): KeyID
    requires !a.Nil?
  {
    if a.Bind? then a.from else a.from
  }

  /** action.which(): the index of the alternative in the variant. */
  function Tag(a: Action): (t: int)
    ensures 0 <= t <= 2
  {
    match a
    case Nil => 0
    case Bind(_, _) => 1
    case Unbind(_) => 2
  }

  /** SerializeAction: the variant index as a 4-byte little-endian int, then the
      raw 20-byte key ids of the alternative. */
  function SerializeAction(a: Action): (vch: seq<byte>)
    ensures |vch| == match a case Nil => 4 case Bind(_, _) => 44 case Unbind(_) => 24
  {
    Int32Bytes(Tag(a)) + match a
      case Nil => []
      case Bind(f, t) => f + t
      case Unbind(f) => f
  }

  /** UnserializeAction: reads the tag, then a pair of key ids for tag 1 or one
      key id for tag 2; any other tag is Nil. A read past the end of the data
      throws (Err). Bytes after what was read are ignored. */
  function UnserializeAction(vch: seq<byte>): (r: Result<Action, StreamError>)
    ensures |vch| < 4 ==> r == Err(EndOfData)
    ensures |vch| >= 4 ==>
      var ty := Int32Value(vch[..4]);
      && (ty == 1 ==> r == if |vch| < 44 then Err(EndOfData) else Ok(Bind(vch[4..24], vch[24..44])))
      && (ty == 2 ==> r == if |vch| < 24 then Err(EndOfData) else Ok(Unbind(vch[4..24])))
      && (ty != 1 && ty != 2 ==> r == Ok(Nil))
  {
    if |vch| < 4 then Err(EndOfData)
    else
      var ty := Int32Value(vch[..4]);
      if ty == 1 then
        if |vch| < 44 then Err(EndOfData) else Ok(Bind(vch[4..24], vch[24..44]))
      else if ty == 2 then
        if |vch| < 24 then Err(EndOfData) else Ok(Unbind(vch[4..24]))
      else Ok(Nil)
  }

  /** Decoding what SerializeAction wrote gives the action back, whatever follows. */
  lemma ActionRoundTrip(a: Action, suffix: seq<byte>)
    ensures UnserializeAction(SerializeAction(a) + suffix) == Ok(a)
  {
    var vch := SerializeAction(a) + suffix;
    Int32RoundTrip(Tag(a));
    assert vch[..4] == Int32Bytes(Tag(a));
    match a
    case Nil =>
    case Bind(f, t) =>
      assert vch[4..24] == f && vch[24..44] == t;
    case Unbind(f) =>
      assert vch[4..24] == f;
  }

  /** Only tags 1 and 2 decode to something other than Nil. */
  lemma UnknownTagIsNil(vch: seq<byte>)
    requires |vch| >= 4 && Int32Value(vch[..4]) != 1 && Int32Value(vch[..4]) != 2
    ensures UnserializeAction(vch) == Ok(Nil)
  {
  }

  // ---------------------------------------------------------------- signatures

  /** The cryptographic primitives, uninterpreted. `hash` is the hash of
      (serialised action, outpoint) through CHashWriter; `signCompact` is
      CKey::SignCompact, None on failure; `recoverCompact` is
      CPubKey::RecoverCompact; `keyIdOf` is CPubKey::GetID; `plotIdOf` is
      CKeyID::GetPlotID, not assumed injective. */
  datatype Crypto = Crypto(
    hash: (seq<byte>, OutPoint) -> uint256,
    signCompact: (PrivKey, uint256) -> Option<seq<byte>>,
    recoverCompact: (uint256, seq<byte>) -> Option<PubKey>,
    pubKeyOf: PrivKey -> PubKey,
    keyIdOf: PubKey -> KeyID,
    plotIdOf: KeyID -> PlotID)

  /** What the scheme promises: compact signatures are 65 bytes, and recovery
      from a signature made by a key yields that key's public key. */
  ghost predicate SoundSignatures(c: Crypto)
  {
    forall k: PrivKey, h: uint256 :: c.signCompact(k, h).Some? ==>
      |c.signCompact(k, h).value| == 65 && c.recoverCompact(h, c.signCompact(k, h).value) == Some(c.pubKeyOf(k))
  }

  /** SignAction: the output is the serialised action, followed by the compact
      signature over (action bytes, outpoint) when signing succeeds. */
  function SignAction(c: Crypto, out: OutPoint, action: Action, key: PrivKey): (r: (bool, seq<byte>))
    ensures r.0 <==> c.signCompact(key, c.hash(SerializeAction(action), out)).Some?
    ensures !r.0 ==> r.1 == SerializeAction(action)
    ensures r.0 ==> r.1 == SerializeAction(action) + c.signCompact(key, c.hash(SerializeAction(action), out)).value
  {
    var actionVch := SerializeAction(action);
    match c.signCompact(key, c.hash(actionVch, out))
    case None => (false, actionVch)
    case Some(sig) => (true, actionVch + sig)
  }

  /** VerifyAction: recover the signer over the same preimage; Nil never verifies. */
  function VerifyAction(c: Crypto, out: OutPoint, action: Action, sig: seq<byte>): (ok: bool)
    ensures ok <==>
      && !action.Nil?
      && c.recoverCompact(c.hash(SerializeAction(action), out), sig).Some?
      && c.keyIdOf(c.recoverCompact(c.hash(SerializeAction(action), out), sig).value) == From(action)
  {
    match c.recoverCompact(c.hash(SerializeAction(action), out), sig)
    case None => false
    case Some(pubkey) =>
      match action
      case Nil => false
      case Bind(from, _) => from == c.keyIdOf(pubkey)
      case Unbind(from) => from == c.keyIdOf(pubkey)
  }

  /** An action signed with the key of its `from` identity decodes from the
      signed bytes and verifies against their last 65 bytes. */
  lemma SignThenVerify(c: Crypto, out: OutPoint, action: Action, key: PrivKey)
    requires SoundSignatures(c)
    requires !action.Nil? && From(action) == c.keyIdOf(c.pubKeyOf(key))
    requires SignAction(c, out, action, key).0
    ensures var vch := SignAction(c, out, action, key).1;
      && |vch| >= 65
      && UnserializeAction(vch) == Ok(action)
      && VerifyAction(c, out, action, vch[|vch| - 65..])
  {
    var actionVch := SerializeAction(action);
    var h := c.hash(actionVch, out);
    var sig := c.signCompact(key, h).value;
    var vch := SignAction(c, out, action, key).1;
    assert vch == actionVch + sig;
    assert vch[|vch| - 65..] == sig;
    ActionRoundTrip(action, sig);
  }

  /** A signature made with another identity's key does not verify. */
  lemma ForeignSignatureRejected(c: Crypto, out: OutPoint, action: Action, key: PrivKey)
    requires SoundSignatures(c)
    requires !action.Nil? && From(action) != c.keyIdOf(c.pubKeyOf(key))
    requires SignAction(c, out, action, key).0
    ensures var vch := SignAction(c, out, action, key).1;
      !VerifyAction(c, out, action, vch[|vch| - 65..])
  {
    var actionVch := SerializeAction(action);
    var h := c.hash(actionVch, out);
    var sig := c.signCompact(key, h).value;
    var vch := SignAction(c, out, action, key).1;
    assert vch[|vch| - 65..] == sig;
  }

  // ---------------------------------------------------------------- DecodeAction

  /** The coin view, the consensus fee and the transaction hash, as parameters:
      `coinValue` is AccessCoin(prevout).out.nValue, `actionFee` is nActionFee. */
  datatype ChainContext = ChainContext(coinValue: OutPoint -> int, actionFee: int, txHash: Transaction -> uint256)

  /** The sum of the values of the coins the inputs spend. */
  function InputValue(ctx: ChainContext, vin: seq<TxIn>): int
  {
    if vin == [] then 0 else InputValue(ctx, vin[..|vin| - 1]) + ctx.coinValue(vin[|vin| - 1].prevout)
  }

  /** The filter in front of the output scan. */
  predicate Eligible(ctx: ChainContext, tx: Transaction)
  {
    && !IsCoinBase(tx) && !IsNullTx(tx) && |tx.vout| == 2
    && (tx.vout[0].nValue == 0 || tx.vout[1].nValue == 0)
    && InputValue(ctx, tx.vin) - GetValueOut(tx.vout) == ctx.actionFee
  }

  /** A zero-valued output whose first operation is OP_RETURN. */
  predicate Candidate(o: TxOut)
  {
    o.nValue == 0 && GetOp(o.scriptPubKey, 0).ok && GetOp(o.scriptPubKey, 0).opcode == OP_RETURN
  }

  /** The data of the second operation (empty when there is none). */
  function Payload(o: TxOut): seq<byte>
  {
    GetOp(o.scriptPubKey, 1).data
  }

  /** The output scan: the payload of each candidate is decoded (a decoding
      failure throws), and the first payload of at least 65 bytes wins with
      its last 65 bytes as the signature. No winner gives Nil and leaves the
      signature as it was. */
  function ScanOutputs(vout: seq<TxOut>, sigIn: seq<byte>): (r: Result<(Action, seq<byte>), StreamError>)
    ensures r.Ok? && !r.value.0.Nil? ==> |r.value.1| == 65
    ensures r.Ok? && r.value.1 != sigIn ==> |r.value.1| == 65
    ensures r.Err? ==> exists k :: 0 <= k < |vout| && Candidate(vout[k]) && UnserializeAction(Payload(vout[k])).Err?
  {
    if vout == [] then Ok((Nil, sigIn))
    else if !Candidate(vout[0]) then ScanOutputs(vout[1..], sigIn)
    else
      var payload := Payload(vout[0]);
      match UnserializeAction(payload)
      case Err(e) => Err(e)
      case Ok(action) =>
        if |payload| < 65 then ScanOutputs(vout[1..], sigIn)
        else Ok((action, payload[|payload| - 65..]))
  }

  /** DecodeAction as a function of the transaction and the incoming vchSig. */
  function ExtractedAction(ctx: ChainContext, tx: Transaction, sigIn: seq<byte>): Result<(Action, seq<byte>), StreamError>
  {
    if Eligible(ctx, tx) then ScanOutputs(tx.vout, sigIn) else Ok((Nil, sigIn))
  }

  /** A candidate skipped by the scan: it decodes but is shorter than 65 bytes. */
  predicate Skipped(o: TxOut)
  {
    !Candidate(o) || (UnserializeAction(Payload(o)).Ok? && |Payload(o)| < 65)
  }

  /** The first candidate that is not skipped decides the scan. */
  lemma {:induction false} ScanFindsFirst(vout: seq<TxOut>, sigIn: seq<byte>, k: nat)
    requires k < |vout| && Candidate(vout[k]) && !Skipped(vout[k])
    requires forall j :: 0 <= j < k ==> Skipped(vout[j])
    ensures ScanOutputs(vout, sigIn) ==
      match UnserializeAction(Payload(vout[k]))
      case Err(e) => Err(e)
      case Ok(a) => Ok((a, Payload(vout[k])[|Payload(vout[k])| - 65..]))
  {
    if k > 0 {
      assert Skipped(vout[0]);
      ScanFindsFirst(vout[1..], sigIn, k - 1);
    }
  }

  /** When every output is skipped the result is Nil and vchSig is unchanged. */
  lemma {:induction false} ScanAllSkipped(vout: seq<TxOut>, sigIn: seq<byte>)
    requires forall j :: 0 <= j < |vout| ==> Skipped(vout[j])
    ensures ScanOutputs(vout, sigIn) == Ok((Nil, sigIn))
  {
    if vout != [] {
      assert Skipped(vout[0]);
      ScanAllSkipped(vout[1..], sigIn);
    }
  }

  /** An OP_RETURN output with fewer than 4 payload bytes (including one with
      no second operation) makes the decoding throw: it is not skipped. */
  lemma ShortPayloadRaises(ctx: ChainContext, tx: Transaction, k: nat, sigIn: seq<byte>)
    requires Eligible(ctx, tx)
    requires k < |tx.vout| && Candidate(tx.vout[k]) && |Payload(tx.vout[k])| < 4
    requires forall j :: 0 <= j < k ==> Skipped(tx.vout[j])
    ensures ExtractedAction(ctx, tx, sigIn) == Err(EndOfData)
  {
    ScanFindsFirst(tx.vout, sigIn, k);
  }

  /** An eligible transaction whose first zero-valued output is
      `OP_RETURN <SignAction bytes>` yields the action and its signature. */
  lemma SignedOutputDecodes(c: Crypto, ctx: ChainContext, tx: Transaction, out: OutPoint, action: Action,
                            key: PrivKey, k: nat, sigIn: seq<byte>)
    requires SoundSignatures(c) && Eligible(ctx, tx) && SignAction(c, out, action, key).0
    requires k < |tx.vout| && tx.vout[k].nValue == 0
    requires |tx.vout[k].scriptPubKey| >= 2
    requires tx.vout[k].scriptPubKey[..2] == [Code(OP_RETURN), Push(SignAction(c, out, action, key).1)]
    requires forall j :: 0 <= j < k ==> Skipped(tx.vout[j])
    ensures var vch := SignAction(c, out, action, key).1;
      ExtractedAction(ctx, tx, sigIn) == Ok((action, vch[|vch| - 65..]))
  {
    var vch := SignAction(c, out, action, key).1;
    var s := tx.vout[k].scriptPubKey;
    assert s[0] == Code(OP_RETURN) && s[1] == Push(vch);
    var h := c.hash(SerializeAction(action), out);
    assert vch == SerializeAction(action) + c.signCompact(key, h).value;
    ActionRoundTrip(action, c.signCompact(key, h).value);
    ScanFindsFirst(tx.vout, sigIn, k);
  }

  /** DecodeAction: the eligibility filter, the input-value loop, the output scan. */
  method DecodeAction(ctx: ChainContext, tx: Transaction, vchSig: seq<byte>)
    returns (r: Result<(Action, seq<byte>), StreamError>)
    ensures r == ExtractedAction(ctx, tx, vchSig)
    ensures !Eligible(ctx, tx) ==> r == Ok((Nil, vchSig))
    ensures r.Ok? && !r.value.0.Nil? ==> |r.value.1| == 65
  {
    if IsCoinBase(tx) || IsNullTx(tx) || |tx.vout| != 2 || (tx.vout[0].nValue != 0 && tx.vout[1].nValue != 0) {
      return Ok((Nil, vchSig));
    }
    var nAmount := 0;
    for i := 0 to |tx.vin|
      invariant nAmount == InputValue(ctx, tx.vin[..i])
    {
      assert tx.vin[..i + 1][..i] == tx.vin[..i];
      nAmount := nAmount + ctx.coinValue(tx.vin[i].prevout);
    }
    assert tx.vin[..|tx.vin|] == tx.vin;
    var outValue := GetValueOut(tx.vout);
    if nAmount - outValue != ctx.actionFee {
      return Ok((Nil, vchSig));
    }
    for i := 0 to |tx.vout|
      invariant ScanOutputs(tx.vout[i..], vchSig) == ScanOutputs(tx.vout, vchSig)
    {
      assert tx.vout[i..][1..] == tx.vout[i + 1..];
      var o := tx.vout[i];
      if o.nValue != 0 {
        continue;
      }
      var first := GetOp(o.scriptPubKey, 0);
      if !first.ok || first.opcode != OP_RETURN {
        continue;
      }
      var vchRet := GetOp(o.scriptPubKey, 1).data;
      var action := UnserializeAction(vchRet);
      if action.Err? {
        return Err(action.error);
      }
      if |vchRet| < 65 {
        continue;
      }
      return Ok((action.value, vchRet[|vchRet| - 65..]));
    }
    return Ok((Nil, vchSig));
  }
}
