/** Fixed-size opaque blobs (uint256, uint160) as their stored byte arrays,
    ordered the way their Compare orders them: memcmp, byte by byte from
    the first stored byte, each byte unsigned. */
module Blob {
  import opened Basics

  type uint256 = s: seq<byte> | |s| == 32 witness seq(32, i => 0)
  type uint160 = s: seq<byte> | |s| == 20 witness seq(20, i => 0)

  /** The all-zero blob of a given width (what SetNull/default construction store). */
  function Zeros(width: nat): (z: seq<byte>)
    ensures |z| == width && forall i :: 0 <= i < width ==> z[i] == 0
  {
    seq(width, i => 0)
  }

  const NullHash: uint256 := Zeros(32)
  const NullId: uint160 := Zeros(20)

  /** base_blob::IsNull: every byte is zero. */
  predicate IsNullBlob(b: seq<byte>)
  {
    forall i :: 0 <= i < |b| ==> b[i] == 0
  }

  lemma NullBlobIsZeros(b: seq<byte>)
    ensures IsNullBlob(b) <==> b == Zeros(|b|)
  {
  }

  /** memcmp over two equal-length byte arrays: -1, 0 or 1. */
  function Compare(a: seq<byte>, b: seq<byte>): (c: int)
    requires |a| == |b|
    ensures -1 <= c <= 1
  {
    if |a| == 0 then 0
    else if a[0] < b[0] then -1
    else if a[0] > b[0] then 1
    else Compare(a[1..], b[1..])
  }

  predicate BlobLess(a: seq<byte>, b: seq<byte>)
    requires |a| == |b|
  {
    Compare(a, b) < 0
  }

  lemma {:induction false} CompareZeroIffEqual(a: seq<byte>, b: seq<byte>)
    requires |a| == |b|
    ensures Compare(a, b) == 0 <==> a == b
  {
    if |a| > 0 {
      CompareZeroIffEqual(a[1..], b[1..]);
      assert a == [a[0]] + a[1..] && b == [b[0]] + b[1..];
    }
  }

  lemma {:induction false} CompareAntisymmetric(a: seq<byte>, b: seq<byte>)
    requires |a| == |b|
    ensures Compare(a, b) == -Compare(b, a)
  {
    if |a| > 0 {
      CompareAntisymmetric(a[1..], b[1..]);
    }
  }

  lemma {:induction false} CompareTransitive(a: seq<byte>, b: seq<byte>, c: seq<byte>)
    requires |a| == |b| == |c|
    requires Compare(a, b) < 0 && Compare(b, c) < 0
    ensures Compare(a, c) < 0
  {
    if a[0] == b[0] && b[0] == c[0] {
      CompareTransitive(a[1..], b[1..], c[1..]);
    }
  }

  /** Every finite non-empty set of uint160 values has a least element. */
  lemma {:induction false} LeastExists(s: set<uint160>)
    requires s != {}
    ensures exists m :: m in s && forall y :: y in s && y != m ==> BlobLess(m, y)
    decreases |s|
  {
    var x :| x in s;
    var rest := s - {x};
    if rest == {} {
      forall y | y in s
        ensures y == x
      {
        assert y == x || y in rest;
      }
    } else {
      LeastExists(rest);
      var m :| m in rest && forall y :: y in rest && y != m ==> BlobLess(m, y);
      CompareAntisymmetric(x, m);
      CompareZeroIffEqual(x, m);
      if BlobLess(m, x) {
        forall y | y in s && y != m
          ensures BlobLess(m, y)
        {
          assert y == x || y in rest;
        }
      } else {
        assert BlobLess(x, m);
        forall y | y in s && y != x
          ensures BlobLess(x, y)
        {
          assert y == m || (y in rest && y != m);
          if y != m {
            CompareTransitive(x, m, y);
          }
        }
      }
    }
  }

  /** The least element of a finite non-empty set of uint160 values is unique. */
  lemma LeastUnique(s: set<uint160>, m1: uint160, m2: uint160)
    requires m1 in s && forall y :: y in s && y != m1 ==> BlobLess(m1, y)
    requires m2 in s && forall y :: y in s && y != m2 ==> BlobLess(m2, y)
    ensures m1 == m2
  {
    CompareAntisymmetric(m1, m2);
  }

  ghost function Least(s: set<uint160>): (m: uint160)
    requires s != {}
    ensures m in s && forall y :: y in s && y != m ==> BlobLess(m, y)
  {
    LeastExists(s);
    var m :| m in s && forall y :: y in s && y != m ==> BlobLess(m, y); m
  }
}
