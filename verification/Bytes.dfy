/** Values shared by the other modules: optional results, byte strings,
    flattening of sequences and network-order (big-endian) integers. */
module Bytes {

  datatype Option<+T> = None | Some(value: T)

  type byte = x: int | 0 <= x < 256
  type bytes = seq<byte>

  /** The concatenation of a sequence of sequences, in order. */
  function Flatten<T>(parts: seq<seq<T>>): seq<T> {
    if parts == [] then [] else parts[0] + Flatten(parts[1..])
  }

  lemma AppendAssociative<T>(a: seq<T>, b: seq<T>, c: seq<T>)
    ensures a + b + c == a + (b + c)
  {
  }

  lemma {:induction false} FlattenAppend<T>(a: seq<seq<T>>, b: seq<seq<T>>)
    ensures Flatten(a + b) == Flatten(a) + Flatten(b)
  {
    if a == [] {
      assert a + b == b;
    } else {
      assert (a + b)[1..] == a[1..] + b;
      FlattenAppend(a[1..], b);
    }
  }

  lemma FlattenSnoc<T>(a: seq<seq<T>>, x: seq<T>)
    ensures Flatten(a + [x]) == Flatten(a) + x
  {
    FlattenAppend(a, [x]);
    assert Flatten([x]) == x;
  }

  /** 256 to the power n. */
  function Pow256(n: nat): (p: int)
    ensures p > 0
  {
    if n == 0 then 1 else 256 * Pow256(n - 1)
  }

  /** The n low-order bytes of x, most significant first. */
  function EncodeUnsigned(x: nat, n: nat): (s: bytes)
    ensures |s| == n
  {
    if n == 0 then [] else EncodeUnsigned(x / 256, n - 1) + [x % 256]
  }

  lemma MulStep(b: nat, q: int, r: int)
    requires q < r
    ensures b * q + b <= b * r
  {
    var k := r - q - 1;
    assert 0 <= b * k;
    assert b * (q + 1 + k) == b * q + b + b * k;
  }

  lemma QuotientUnique(b: nat, q: int, r: int, a: int)
    requires b * q <= a < b * q + b && b * r <= a < b * r + b
    ensures q == r
  {
    if q < r {
      MulStep(b, q, r);
      assert false;
    }
    if r < q {
      MulStep(b, r, q);
      assert false;
    }
  }

  lemma DivideTwice(x: nat, p: nat)
    requires p > 0
    ensures x / 256 / p == x / (256 * p)
  {
    var y, d := x / 256, 256 * p;
    var q, r := y / p, y % p;
    assert y == p * q + r;
    assert d * q == 256 * (p * q);
    assert x == d * (x / d) + x % d;
    QuotientUnique(d, q, x / d, x);
  }

  /** Network order: the byte at position i is the one of weight 256 to the power n - 1 - i. */
  lemma {:induction false} EncodeUnsignedAt(x: nat, n: nat, i: nat)
    requires i < n
    ensures EncodeUnsigned(x, n)[i] == x / Pow256(n - 1 - i) % 256
    decreases n
  {
    if i < n - 1 {
      EncodeUnsignedAt(x / 256, n - 1, i);
      DivideTwice(x, Pow256(n - 2 - i));
    }
  }

  function DecodeUnsigned(s: bytes): nat {
    if s == [] then 0 else 256 * DecodeUnsigned(s[..|s| - 1]) + s[|s| - 1]
  }

  lemma {:induction false} DecodeUnsignedBound(s: bytes)
    ensures DecodeUnsigned(s) < Pow256(|s|)
  {
    if s != [] {
      DecodeUnsignedBound(s[..|s| - 1]);
    }
  }

  lemma {:induction false} DecodeEncodeUnsigned(x: nat, n: nat)
    requires x < Pow256(n)
    ensures DecodeUnsigned(EncodeUnsigned(x, n)) == x
  {
    if n > 0 {
      DecodeEncodeUnsigned(x / 256, n - 1);
      var s := EncodeUnsigned(x, n);
      assert s[..|s| - 1] == EncodeUnsigned(x / 256, n - 1);
    }
  }

  lemma {:induction false} EncodeDecodeUnsigned(s: bytes)
    ensures EncodeUnsigned(DecodeUnsigned(s), |s|) == s
  {
    if s != [] {
      EncodeDecodeUnsigned(s[..|s| - 1]);
      assert s == s[..|s| - 1] + [s[|s| - 1]];
    }
  }

  /** The values of a two's-complement integer of n bytes. */
  predicate FitsSigned(x: int, n: nat) {
    -Pow256(n) <= 2 * x < Pow256(n)
  }

  /** Network-order bytes of a two's-complement integer of n bytes. */
  function EncodeSigned(x: int, n: nat): (s: bytes)
    requires FitsSigned(x, n)
    ensures |s| == n
  {
    EncodeUnsigned(if x < 0 then x + Pow256(n) else x, n)
  }

  function DecodeSigned(s: bytes): int {
    var u := DecodeUnsigned(s);
    if 2 * u >= Pow256(|s|) then u - Pow256(|s|) else u
  }

  /** Signed integers survive a trip through network order. */
  lemma SignedRoundTrip(x: int, n: nat)
    requires FitsSigned(x, n)
    ensures DecodeSigned(EncodeSigned(x, n)) == x
  {
    DecodeEncodeUnsigned(if x < 0 then x + Pow256(n) else x, n);
  }

  /** Every string of bytes is the network order of exactly the integer it decodes to. */
  lemma SignedRoundTripBytes(s: bytes)
    ensures FitsSigned(DecodeSigned(s), |s|)
    ensures EncodeSigned(DecodeSigned(s), |s|) == s
  {
    DecodeUnsignedBound(s);
    EncodeDecodeUnsigned(s);
  }

  /** The position of the first occurrence of x in s, or |s| (std::find). */
  function IndexOf<T(==)>(s: seq<T>, x: T): (i: nat)
    ensures i <= |s| && x !in s[..i]
    ensures i < |s| ==> s[i] == x
  {
    if s == [] || s[0] == x then 0
    else
      var i := IndexOf(s[1..], x);
      assert s[..i + 1] == [s[0]] + s[1..][..i];
      i + 1
  }

  const CR: byte := 13
  const LF: byte := 10

  predicate CRLFAt(s: bytes, i: nat) {
    i + 1 < |s| && s[i] == CR && s[i + 1] == LF
  }

  /** The first CRLF at or after position i. */
  function CRLFFrom(s: bytes, i: nat): (r: Option<nat>)
    requires i <= |s|
    ensures r.Some? ==> i <= r.value && CRLFAt(s, r.value)
    ensures r.Some? ==> forall j :: i <= j < r.value ==> !CRLFAt(s, j)
    ensures r.None? ==> forall j :: i <= j < |s| ==> !CRLFAt(s, j)
    decreases |s| - i
  {
    if i + 1 >= |s| then None
    else if CRLFAt(s, i) then Some(i)
    else CRLFFrom(s, i + 1)
  }

  function FindCRLF(s: bytes): Option<nat> {
    CRLFFrom(s, 0)
  }

  /** A CRLF found in a prefix of the stream stays the first one, whatever arrives later. */
  lemma FindCRLFStable(a: bytes, b: bytes)
    requires FindCRLF(a).Some?
    ensures FindCRLF(a + b) == FindCRLF(a)
  {
    var i := FindCRLF(a).value;
    assert CRLFAt(a + b, i);
    forall j | 0 <= j < i ensures !CRLFAt(a + b, j) {
      assert !CRLFAt(a, j);
    }
  }
}
