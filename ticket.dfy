/** The locked-output ticket: the script that locks a coin to a public key
    until a height, its parser, and the CTicket record. */
module Tickets {
  import opened Basics
  import opened Blob
  import opened Script

  /** A serialised public key (CPubKey's bytes). */
  type PubKey = seq<byte>

  /** `<lockHeight> OP_CHECKLOCKTIMEVERIFY OP_DROP <pubkey> OP_CHECKSIG`; the
      lock height is a C++ `int`, pushed as its script-number bytes. */
  function GenerateTicketScript(pk: PubKey, lockHeight: int32): (s: Script)
    ensures |s| == 5
    ensures s[0].Push? && ScriptNumValue(s[0].data) == lockHeight
    ensures lockHeight != -0x8000_0000 ==> ScriptNumDecode(s[0].data) == Ok(lockHeight as int)
    ensures s[1] == Code(OP_CHECKLOCKTIMEVERIFY) && s[2] == Code(OP_DROP)
    ensures s[3] == Push(pk) && s[4] == Code(OP_CHECKSIG)
  {
    ScriptNumRoundTrip(lockHeight);
    ScriptNumSerializeDecodes(lockHeight);
    [Push(ScriptNumSerialize(lockHeight)), Code(OP_CHECKLOCKTIMEVERIFY), Code(OP_DROP), Push(pk), Code(OP_CHECKSIG)]
  }

  /** GetPublicKeyFromScript: four GetOp calls in a row, each checked before
      the next. When the first succeeds its data is read as a CScriptNum,
      which throws on more than four bytes or a non-minimal encoding: that is
      the Err result. Otherwise the first component is the success flag and
      the second the out parameter `pubkey`, assigned only on success. */
  function GetPublicKeyFromScript(script: Script, pubkey: PubKey): (r: Result<(bool, PubKey), ScriptNumError>)
    ensures r.Err? <==> |script| >= 1 && ScriptNumDecode(DataOf(script[0])).Err?
    ensures r.Err? ==> r.error == ScriptNumDecode(DataOf(script[0])).error
    ensures r.Ok? ==> (r.value.0 <==>
      && |script| >= 4
      && ScriptNumValue(DataOf(script[0])) > 0
      && OpcodeOf(script[1]) == OP_CHECKLOCKTIMEVERIFY
      && OpcodeOf(script[2]) == OP_DROP
      && |DataOf(script[3])| == 33)
    ensures r.Ok? && r.value.0 ==> r.value.1 == DataOf(script[3])
    ensures r.Ok? && !r.value.0 ==> r.value.1 == pubkey
  {
    var lock := GetOp(script, 0);
    if !lock.ok then Ok((false, pubkey))
    else
      match ScriptNumDecode(lock.data)
      case Err(e) => Err(e)
      case Ok(lockHeight) =>
        if lockHeight > 0 then
          var cltv := GetOp(script, 1);
          if cltv.ok && cltv.opcode == OP_CHECKLOCKTIMEVERIFY then
            var drop := GetOp(script, 2);
            if drop.ok && drop.opcode == OP_DROP then
              var key := GetOp(script, 3);
              if key.ok && |key.data| == 33 then Ok((true, key.data)) else Ok((false, pubkey))
            else Ok((false, pubkey))
          else Ok((false, pubkey))
        else Ok((false, pubkey))
  }

  /** Parsing a generated ticket script gives back its 33-byte key. */
  lemma TicketScriptRoundTrip(pk: PubKey, lockHeight: int32, prior: PubKey)
    requires |pk| == 33 && lockHeight > 0
    ensures GetPublicKeyFromScript(GenerateTicketScript(pk, lockHeight), prior) == Ok((true, pk))
  {
  }

  /** A ticket script with a lock height of zero or less, but above the
      smallest `int`, is refused and the key left untouched. */
  lemma NonPositiveLockRefused(pk: PubKey, lockHeight: int32, prior: PubKey)
    requires -0x8000_0000 < lockHeight <= 0
    ensures GetPublicKeyFromScript(GenerateTicketScript(pk, lockHeight), prior) == Ok((false, prior))
  {
  }

  /** The script built for the smallest `int` pushes five bytes, so parsing
      it throws a script-number overflow. */
  lemma MinLockThrows(pk: PubKey, prior: PubKey)
    ensures GetPublicKeyFromScript(GenerateTicketScript(pk, -0x8000_0000), prior) == Err(Overflow)
  {
    MinInt32Overflows();
  }

  /** A first push longer than four bytes throws, whatever its value. */
  lemma LongLockThrows(lock: seq<byte>, rest: Script, prior: PubKey)
    requires |lock| > 4
    ensures GetPublicKeyFromScript([Push(lock)] + rest, prior) == Err(Overflow)
  {
    assert ([Push(lock)] + rest)[0] == Push(lock);
  }

  /** Only the first four operations are looked at: whatever follows them,
      including a missing OP_CHECKSIG, does not change the outcome. */
  lemma TrailingOpsIgnored(s: Script, t: Script, prior: PubKey)
    requires |s| >= 4
    ensures GetPublicKeyFromScript(s + t, prior) == GetPublicKeyFromScript(s, prior)
  {
    assert (s + t)[..4] == s[..4];
    assert forall i :: 0 <= i < 4 ==> (s + t)[i] == s[i];
  }

  lemma MissingCheckSigAccepted(pk: PubKey, lockHeight: int32, prior: PubKey)
    requires |pk| == 33 && lockHeight > 0
    ensures GetPublicKeyFromScript(GenerateTicketScript(pk, lockHeight)[..4], prior) == Ok((true, pk))
  {
    var s := GenerateTicketScript(pk, lockHeight);
    assert s[..4][0] == s[0] && s[..4][3] == Push(pk);
  }

  /** CTicket::CTicketState */
  datatype TicketState = IMMATURATE | USEABLE | OVERDUE | UNKNOW

  /** The enumerators' numeric values, in declaration order from 0. */
  function StateCode(st: TicketState): (c: int)
    ensures 0 <= c <= 3
  {
    match st
    case IMMATURATE => 0
    case USEABLE => 1
    case OVERDUE => 2
    case UNKNOW => 3
  }

  /** Distinct states have distinct codes. */
  lemma StateCodeInjective(a: TicketState, b: TicketState)
    ensures StateCode(a) == StateCode(b) ==> a == b
  {
  }

  /** The serialised form of a ticket, one item per field written. */
  datatype TicketItem = HashItem(hash: uint256) | IndexItem(index: uint32) | ScriptItem(script: Script)

  class Ticket {
    static const VERSION: int := 1

    // memory-only fields: hash, nValue, scriptPubkey
    var hash: uint256
    var txid: uint256
    var nValue: int
    var n: uint32
    var redeemScript: Script
    var scriptPubkey: Script

    /** `CTicket() = default`: blobs zero and scripts empty; n and nValue are
        left indeterminate, so nothing is promised about them. */
    constructor ()
      ensures hash == NullHash && txid == NullHash
      ensures redeemScript == [] && scriptPubkey == []
    {
      hash := NullHash;
      txid := NullHash;
      redeemScript := [];
      scriptPubkey := [];
    }

    function GetHash(): uint256 reads this { hash }
    function GetTxHash(): uint256 reads this { txid }
    function GetIndex(): uint32 reads this { n }
    function GetRedeemScript(): Script reads this { redeemScript }
    function GetScriptPubkey(): Script reads this { scriptPubkey }
    function Amount(): int reads this { nValue }

    method SetValue(ticketid: uint256, txid': uint256, n': uint32, nValue': int, redeemscript: Script, scriptpubkey: Script)
      modifies this
      ensures GetHash() == ticketid && GetTxHash() == txid' && GetIndex() == n'
      ensures Amount() == nValue' && GetRedeemScript() == redeemscript && GetScriptPubkey() == scriptpubkey
    {
      hash := ticketid;
      txid := txid';
      n := n';
      nValue := nValue';
      redeemScript := redeemscript;
      scriptPubkey := scriptpubkey;
    }

    /** Serialize writes txid, n and redeemScript, in that order. */
    function Serialize(): (items: seq<TicketItem>)
      reads this
      ensures |items| == 3
      ensures items[0] == HashItem(txid) && items[1] == IndexItem(n) && items[2] == ScriptItem(redeemScript)
    {
      [HashItem(txid), IndexItem(n), ScriptItem(redeemScript)]
    }

    /** Unserialize reads txid, n and redeemScript back in the same order.
        A read that finds no item of the expected kind throws, so `ok` is
        false and the fields read before it keep their new values. */
    method Unserialize(items: seq<TicketItem>) returns (ok: bool, rest: seq<TicketItem>)
      modifies this`txid, this`n, this`redeemScript
      ensures ok <==> |items| >= 3 && items[0].HashItem? && items[1].IndexItem? && items[2].ScriptItem?
      ensures ok ==> rest == items[3..]
      ensures txid == if |items| >= 1 && items[0].HashItem? then items[0].hash else old(txid)
      ensures n == if |items| >= 2 && items[0].HashItem? && items[1].IndexItem? then items[1].index else old(n)
      ensures redeemScript == if ok then items[2].script else old(redeemScript)
    {
      ok, rest := false, items;
      if |rest| == 0 || !rest[0].HashItem? {
        return;
      }
      txid := rest[0].hash;
      rest := rest[1..];
      if |rest| == 0 || !rest[0].IndexItem? {
        return;
      }
      n := rest[0].index;
      rest := rest[1..];
      if |rest| == 0 || !rest[0].ScriptItem? {
        return;
      }
      redeemScript := rest[0].script;
      rest := rest[1..];
      ok := true;
    }
  }

  /** Writing one ticket and reading the stream into another copies txid, n
      and redeemScript, and leaves the reader's memory-only fields alone. */
  method CopyThroughStream(src: Ticket, dst: Ticket) returns (rest: seq<TicketItem>)
    modifies dst
    ensures dst.txid == old(src.txid) && dst.n == old(src.n) && dst.redeemScript == old(src.redeemScript)
    ensures dst.hash == old(dst.hash) && dst.nValue == old(dst.nValue) && dst.scriptPubkey == old(dst.scriptPubkey)
    ensures rest == []
  {
    var ok;
    ok, rest := dst.Unserialize(src.Serialize());
  }
}
