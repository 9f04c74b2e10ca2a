/** Scripts as lists of decoded operations, and the script-number encoding
    used to push a lock height. A script's byte-level form (push opcodes,
    PUSHDATA length prefixes) is not modelled: a script is the sequence of
    (opcode, data) pairs that CScript::GetOp would return. */
module Script {
  import opened Basics

  const OP_0: byte := 0x00
  const OP_PUSHDATA1: byte := 0x4c
  const OP_PUSHDATA2: byte := 0x4d
  const OP_PUSHDATA4: byte := 0x4e
  const OP_RETURN: byte := 0x6a
  const OP_DROP: byte := 0x75
  const OP_CHECKSIG: byte := 0xac
  const OP_CHECKLOCKTIMEVERIFY: byte := 0xb1
  const OP_INVALIDOPCODE: byte := 0xff

  /** One operation: a data push, or a non-push opcode (which carries no data). */
  datatype ScriptOp = Push(data: seq<byte>) | Code(opcode: byte)

  type Script = seq<ScriptOp>

  /** The opcode with which CScript writes a push of n bytes. */
  function PushOpcode(n: nat): byte
  {
    if n < 0x4c then n else if n <= 0xff then OP_PUSHDATA1 else if n <= 0xffff then OP_PUSHDATA2 else OP_PUSHDATA4
  }

  function OpcodeOf(op: ScriptOp): byte
  {
    match op
    case Push(d) => PushOpcode(|d|)
    case Code(c) => c
  }

  function DataOf(op: ScriptOp): seq<byte>
  {
    match op
    case Push(d) => d
    case Code(_) => []
  }

  /** What one GetOp call at cursor pc reports: success, the opcode and the
      pushed data. Past the end it fails with OP_INVALIDOPCODE and cleared data. */
  datatype OpRead = OpRead(ok: bool, opcode: byte, data: seq<byte>)

  function GetOp(s: Script, pc: nat): (r: OpRead)
    ensures r.ok <==> pc < |s|
    ensures r.ok ==> r.opcode == OpcodeOf(s[pc]) && r.data == DataOf(s[pc])
    ensures !r.ok ==> r.opcode == OP_INVALIDOPCODE && r.data == []
  {
    if pc < |s| then OpRead(true, OpcodeOf(s[pc]), DataOf(s[pc])) else OpRead(false, OP_INVALIDOPCODE, [])
  }

  /** The minimal little-endian bytes of a magnitude (empty for zero). */
  function MinimalLE(n: nat): (r: seq<byte>)
    ensures n == 0 <==> r == []
    ensures r != [] ==> r[|r| - 1] != 0
    decreases n
  {
    if n == 0 then [] else [n % 256] + MinimalLE(n / 256)
  }

  lemma {:induction false} MinimalLEValue(n: nat)
    ensures LEValue(MinimalLE(n)) == n
    decreases n
  {
    if n > 0 {
      var r := MinimalLE(n);
      assert r[1..] == MinimalLE(n / 256);
      MinimalLEValue(n / 256);
    }
  }

  /** CScriptNum::serialize: little-endian magnitude, the sign in the top bit
      of the last byte, an extra byte when that bit is already taken. */
  function ScriptNumSerialize(v: int): seq<byte>
  {
    if v == 0 then []
    else
      var mag := MinimalLE(if v < 0 then -v else v);
      var last := mag[|mag| - 1];
      if last >= 0x80 then mag + [if v < 0 then 0x80 else 0]
      else if v < 0 then mag[..|mag| - 1] + [last + 0x80]
      else mag
  }

  /** CScriptNum::set_vch: the value of a script-number byte string. */
  function ScriptNumValue(vch: seq<byte>): int
  {
    if vch == [] then 0
    else
      var last := vch[|vch| - 1];
      if last >= 0x80 then -(LEValue(vch[..|vch| - 1] + [last - 0x80]) as int)
      else LEValue(vch)
  }

  /** Decoding a serialised script number gives the number back. */
  lemma ScriptNumRoundTrip(v: int)
    ensures ScriptNumValue(ScriptNumSerialize(v)) == v
  {
    if v != 0 {
      var a := if v < 0 then -v else v;
      var mag := MinimalLE(a);
      MinimalLEValue(a);
      var k := |mag| - 1;
      var last := mag[k];
      var vch := ScriptNumSerialize(v);
      if last >= 0x80 {
        var pad: byte := if v < 0 then 0x80 else 0;
        assert vch == mag + [pad];
        assert vch[..|vch| - 1] == mag;
        LEValueAppend(mag, [0]);
        assert LEValue([0]) == 0;
        if v < 0 {
          assert vch[..|vch| - 1] + [vch[|vch| - 1] - 0x80] == mag + [0];
        } else {
          assert vch[|vch| - 1] == 0;
          assert vch == mag + [0];
        }
      } else if v < 0 {
        assert vch == mag[..k] + [last + 0x80];
        assert vch[..|vch| - 1] + [vch[|vch| - 1] - 0x80] == mag;
      }
    }
  }

  /** The two ways CScriptNum's constructor throws scriptnum_error. */
  datatype ScriptNumError = Overflow | NonMinimal

  /** The default size limit of a script number, in bytes. */
  const MAX_NUM_SIZE: nat := 4

  /** The minimal-encoding rule: the last byte may carry only the sign when
      the byte before it has its top bit set. */
  predicate ScriptNumMinimal(vch: seq<byte>)
  {
    vch == [] || vch[|vch| - 1] % 0x80 != 0 || (|vch| > 1 && vch[|vch| - 2] >= 0x80)
  }

  /** CScriptNum(vch, fRequireMinimal = true): too long a string throws an
      overflow, a non-minimal one throws too, otherwise the value. */
  function ScriptNumDecode(vch: seq<byte>): (r: Result<int, ScriptNumError>)
    ensures r.Ok? <==> |vch| <= MAX_NUM_SIZE && ScriptNumMinimal(vch)
    ensures r == Err(Overflow) <==> |vch| > MAX_NUM_SIZE
    ensures r.Ok? ==> r.value == ScriptNumValue(vch)
  {
    if |vch| > MAX_NUM_SIZE then Err(Overflow)
    else if !ScriptNumMinimal(vch) then Err(NonMinimal)
    else Ok(ScriptNumValue(vch))
  }

  /** A magnitude below 128 * 256^k takes at most k + 1 bytes, and when it
      takes k + 1 the top bit of the last one is clear. */
  lemma {:induction false} MinimalLESize(n: nat, k: nat)
    requires n < 128 * Pow256(k)
    ensures |MinimalLE(n)| <= k + 1
    ensures |MinimalLE(n)| == k + 1 ==> MinimalLE(n)[k] < 0x80
    decreases k
  {
    if n > 0 {
      var r := MinimalLE(n);
      assert r == [n % 256] + MinimalLE(n / 256);
      if k == 0 {
        assert n / 256 == 0;
        assert r == [n];
      } else {
        assert n / 256 < 128 * Pow256(k - 1);
        MinimalLESize(n / 256, k - 1);
        if |r| == k + 1 {
          assert r[k] == MinimalLE(n / 256)[k - 1];
        }
      }
    }
  }

  /** Every serialised script number is minimally encoded, and one of a C++
      `int` other than -2^31 fits in four bytes. */
  lemma ScriptNumSerializeDecodes(v: int32)
    ensures v != -0x8000_0000 ==> ScriptNumDecode(ScriptNumSerialize(v)) == Ok(v as int)
  {
    ScriptNumRoundTrip(v);
    if v != 0 && v != -0x8000_0000 {
      var a := if v < 0 then -v else v;
      var mag := MinimalLE(a);
      assert Pow256(3) == 0x100_0000;
      MinimalLESize(a, 3);
      var vch := ScriptNumSerialize(v);
      var last := mag[|mag| - 1];
      if last >= 0x80 {
        assert vch == mag + [if v < 0 then 0x80 else 0];
        assert vch[|vch| - 2] == last;
      } else if v < 0 {
        assert vch == mag[..|mag| - 1] + [last + 0x80];
        assert vch[|vch| - 1] % 0x80 == last;
      } else {
        assert vch == mag;
      }
    }
  }

  /** The smallest C++ `int` takes five bytes, so decoding it overflows. */
  lemma MinInt32Overflows()
    ensures ScriptNumSerialize(-0x8000_0000) == [0, 0, 0, 0x80, 0x80]
    ensures ScriptNumDecode(ScriptNumSerialize(-0x8000_0000)) == Err(Overflow)
  {
    assert MinimalLE(0x80) == [0x80] by {
      assert MinimalLE(0) == [];
    }
    assert MinimalLE(0x8000) == [0, 0x80];
    assert MinimalLE(0x80_0000) == [0, 0, 0x80];
    assert MinimalLE(0x8000_0000) == [0, 0, 0, 0x80];
  }
}
