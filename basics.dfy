/** Machine-level vocabulary shared by every module: bytes, fixed-width
    integers, optional values and results, little-endian arithmetic. */
module Basics {

  type byte = b: int | 0 <= b < 256
  type uint32 = x: int | 0 <= x < 0x1_0000_0000
  type uint64 = x: int | 0 <= x < 0x1_0000_0000_0000_0000
  /** A C++ `int`. */
  type int32 = x: int | -0x8000_0000 <= x < 0x8000_0000

  datatype Option<T> = None | Some(value: T)

  datatype Result<T, E> = Ok(value: T) | Err(error: E)

  /** 256^k */
  function Pow256(k: nat): (r: nat)
    ensures r >= 1
  {
    if k == 0 then 1 else 256 * Pow256(k - 1)
  }

  /** The value of a little-endian byte string (least significant byte first). */
  function LEValue(s: seq<byte>): nat
  {
    if s == [] then 0 else s[0] + 256 * LEValue(s[1..])
  }

  /** The fixed-width little-endian encoding of n in `width` bytes. */
  function LEBytes(n: nat, width: nat): (r: seq<byte>)
    ensures |r| == width
  {
    if width == 0 then [] else [n % 256] + LEBytes(n / 256, width - 1)
  }

  lemma {:induction false} LEValueBound(s: seq<byte>)
    ensures LEValue(s) < Pow256(|s|)
  {
    if s != [] {
      LEValueBound(s[1..]);
    }
  }

  lemma {:induction false} LEBytesValue(n: nat, width: nat)
    requires n < Pow256(width)
    ensures LEValue(LEBytes(n, width)) == n
  {
    if width > 0 {
      var r := LEBytes(n, width);
      assert r[1..] == LEBytes(n / 256, width - 1);
      LEBytesValue(n / 256, width - 1);
    }
  }

  /** Equal-length byte strings with the same value are the same string. */
  lemma {:induction false} LEValueInjective(s: seq<byte>, t: seq<byte>)
    requires |s| == |t| && LEValue(s) == LEValue(t)
    ensures s == t
  {
    if s != [] {
      assert s[0] == LEValue(s) % 256 && t[0] == LEValue(t) % 256;
      LEValueInjective(s[1..], t[1..]);
      assert s == [s[0]] + s[1..] && t == [t[0]] + t[1..];
    }
  }

  lemma {:induction false} LEValueAppend(s: seq<byte>, t: seq<byte>)
    ensures LEValue(s + t) == LEValue(s) + Pow256(|s|) * LEValue(t)
  {
    if s == [] {
      assert s + t == t;
    } else {
      assert (s + t)[1..] == s[1..] + t;
      LEValueAppend(s[1..], t);
    }
  }

  /** The two's-complement 32-bit encoding of a C++ `int`, least significant byte first. */
  function Int32Bytes(v: int): (r: seq<byte>)
    requires -0x8000_0000 <= v < 0x8000_0000
    ensures |r| == 4
  {
    LEBytes(if v < 0 then v + 0x1_0000_0000 else v, 4)
  }

  /** The C++ `int` read back from four little-endian bytes. */
  function Int32Value(b: seq<byte>): (v: int)
    requires |b| == 4
    ensures -0x8000_0000 <= v < 0x8000_0000
  {
    LEValueBound(b);
    var u := LEValue(b);
    if u >= 0x8000_0000 then u - 0x1_0000_0000 else u
  }

  lemma Int32RoundTrip(v: int)
    requires -0x8000_0000 <= v < 0x8000_0000
    ensures Int32Value(Int32Bytes(v)) == v
  {
    LEBytesValue(if v < 0 then v + 0x1_0000_0000 else v, 4);
  }

  /** Four bytes decode to v exactly when they are v's encoding. */
  lemma Int32ValueIff(b: seq<byte>, v: int)
    requires |b| == 4 && -0x8000_0000 <= v < 0x8000_0000
    ensures Int32Value(b) == v <==> b == Int32Bytes(v)
  {
    Int32RoundTrip(v);
    LEValueBound(b);
    if Int32Value(b) == v {
      var u := if v < 0 then v + 0x1_0000_0000 else v;
      LEBytesValue(u, 4);
      LEValueInjective(b, Int32Bytes(v));
    }
  }

  /** A finite non-empty map keyed by integers has a greatest key. (The
      element is picked from `Items`, a set of pairs.) */
  lemma {:induction false} MaxKeyExists<V>(m: map<int, V>)
    requires m != map[]
    ensures exists k :: k in m && forall j :: j in m ==> j <= k
    decreases |m|
  {
    assert |m.Items| == |m|;
    var p :| p in m.Items;
    var x := p.0;
    var rest := m - {x};
    var top := x;
    if rest != map[] {
      MaxKeyExists(rest);
      var k :| k in rest && forall j :: j in rest ==> j <= k;
      top := if x <= k then k else x;
    }
    forall j | j in m
      ensures j <= top
    {
      assert j == x || j in rest;
    }
  }

  /** The greatest key of a non-empty integer-keyed map. */
  ghost function MaxKey<V>(m: map<int, V>): (k: int)
    requires m != map[]
    ensures k in m && forall j :: j in m ==> j <= k
  {
    MaxKeyExists(m);
    var k :| k in m && forall j :: j in m ==> j <= k; k
  }
}
