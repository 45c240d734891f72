/** Byte strings, fixed-width little-endian integers, and concatenated encodings. */
module ByteStrings {

  type byte = b: int | 0 <= b < 0x100
  type Bytes = seq<byte>

  type u8 = n: int | 0 <= n < 0x100
  type u16 = n: int | 0 <= n < 0x1_0000
  type u32 = n: int | 0 <= n < 0x1_0000_0000
  type u64 = n: int | 0 <= n < 0x1_0000_0000_0000_0000
  type i64 = n: int | -0x8000_0000_0000_0000 <= n < 0x8000_0000_0000_0000

  type Bytes32 = b: Bytes | |b| == 32 witness Zeros(32)
  type Bytes64 = b: Bytes | |b| == 64 witness Zeros(64)

  /** A string of `n` zero bytes. */
  function Zeros(n: nat): (z: Bytes)
    ensures |z| == n
    ensures forall i :: 0 <= i < n ==> z[i] == 0
  {
    seq(n, _ => 0)
  }

  //////////////////////////////////////////////////////////////////////////////
  // Little-endian integers
  //////////////////////////////////////////////////////////////////////////////

  function Pow256(n: nat): (p: nat)
    ensures p > 0
  {
    if n == 0 then 1 else 256 * Pow256(n - 1)
  }

  lemma Pow256Table()
    ensures Pow256(1) == 0x100
    ensures Pow256(2) == 0x1_0000
    ensures Pow256(4) == 0x1_0000_0000
    ensures Pow256(8) == 0x1_0000_0000_0000_0000
  {
    assert Pow256(2) == 256 * Pow256(1);
    assert Pow256(3) == 256 * Pow256(2);
    assert Pow256(4) == 256 * Pow256(3);
    assert Pow256(5) == 256 * Pow256(4);
    assert Pow256(6) == 256 * Pow256(5);
    assert Pow256(7) == 256 * Pow256(6);
    assert Pow256(8) == 256 * Pow256(7);
  }

  /** The low `n` bytes of `v`, least significant first. */
  function LE(v: nat, n: nat): (b: Bytes)
    ensures |b| == n
  {
    if n == 0 then [] else [v % 256] + LE(v / 256, n - 1)
  }

  /** The value of a little-endian byte string. */
  function UnLE(b: Bytes): (v: nat)
    ensures v < Pow256(|b|)
  {
    if b == [] then 0 else b[0] + 256 * UnLE(b[1..])
  }

  lemma {:induction false} UnLEOfLE(v: nat, n: nat)
    requires v < Pow256(n)
    ensures UnLE(LE(v, n)) == v
  {
    if n > 0 {
      assert LE(v, n)[1..] == LE(v / 256, n - 1);
      UnLEOfLE(v / 256, n - 1);
    }
  }

  lemma {:induction false} LEOfUnLE(b: Bytes)
    ensures LE(UnLE(b), |b|) == b
  {
    if b != [] {
      LEOfUnLE(b[1..]);
      assert UnLE(b) / 256 == UnLE(b[1..]) && UnLE(b) % 256 == b[0];
    }
  }

  //////////////////////////////////////////////////////////////////////////////
  // Concatenated encodings
  //////////////////////////////////////////////////////////////////////////////

  /** The encodings of `xs`, one after another. */
  function Concat<T>(xs: seq<T>, enc: T -> Bytes): Bytes {
    if xs == [] then [] else enc(xs[0]) + Concat(xs[1..], enc)
  }

  lemma {:induction false} ConcatSnoc<T>(xs: seq<T>, x: T, enc: T -> Bytes)
    ensures Concat(xs + [x], enc) == Concat(xs, enc) + enc(x)
  {
    if xs == [] {
      assert xs + [x] == [x] && [x][1..] == [];
    } else {
      ConcatSnoc(xs[1..], x, enc);
      assert (xs + [x])[1..] == xs[1..] + [x];
      assert enc(xs[0]) + (Concat(xs[1..], enc) + enc(x)) == enc(xs[0]) + Concat(xs[1..], enc) + enc(x);
    }
  }

  /** Concatenating encodings of one fixed positive width loses nothing, not even the count. */
  lemma {:induction false} ConcatFixedInjective<T(!new)>(xs: seq<T>, ys: seq<T>, enc: T -> Bytes, width: nat)
    requires width > 0
    requires forall x :: x in xs || x in ys ==> |enc(x)| == width
    requires Concat(xs, enc) == Concat(ys, enc)
    ensures |xs| == |ys|
    ensures forall i :: 0 <= i < |xs| ==> enc(xs[i]) == enc(ys[i])
  {
    if xs == [] || ys == [] {
      assert xs == ys;
    } else {
      var a, b := Concat(xs[1..], enc), Concat(ys[1..], enc);
      assert (enc(xs[0]) + a)[..width] == enc(xs[0]) && (enc(ys[0]) + b)[..width] == enc(ys[0]);
      assert (enc(xs[0]) + a)[width..] == a && (enc(ys[0]) + b)[width..] == b;
      ConcatFixedInjective(xs[1..], ys[1..], enc, width);
      assert forall i :: 1 <= i < |xs| ==> xs[i] == xs[1..][i - 1] && ys[i] == ys[1..][i - 1];
    }
  }

  /** Strings cut at the same place agree on both sides. */
  lemma Unjoin(a: Bytes, b: Bytes, a': Bytes, b': Bytes)
    requires a + b == a' + b' && |a| == |a'|
    ensures a == a' && b == b'
  {
    assert (a + b)[..|a|] == a && (a' + b')[..|a'|] == a';
    assert (a + b)[|a|..] == b && (a' + b')[|a'|..] == b';
  }

  lemma Unjoin3(a: Bytes, b: Bytes, c: Bytes, a': Bytes, b': Bytes, c': Bytes)
    requires a + b + c == a' + b' + c' && |a| == |a'| && |b| == |b'|
    ensures a == a' && b == b' && c == c'
  {
    Unjoin(a + b, c, a' + b', c');
    Unjoin(a, b, a', b');
  }

  lemma Unjoin5(a: Bytes, b: Bytes, c: Bytes, d: Bytes, e: Bytes, a': Bytes, b': Bytes, c': Bytes, d': Bytes, e': Bytes)
    requires a + b + c + d + e == a' + b' + c' + d' + e'
    requires |a| == |a'| && |b| == |b'| && |c| == |c'| && |d| == |d'|
    ensures a == a' && b == b' && c == c' && d == d' && e == e'
  {
    Unjoin3(a + b + c, d, e, a' + b' + c', d', e');
    Unjoin3(a, b, c, a', b', c');
  }

  //////////////////////////////////////////////////////////////////////////////
  // Regrouping: what is written left to right is read front to back
  //////////////////////////////////////////////////////////////////////////////

  lemma Regroup2(a: Bytes, b: Bytes, t: Bytes)
    ensures a + b + t == a + (b + t)
  {
    assert (a + b) + t == a + (b + t);
  }

  lemma Regroup3(a: Bytes, b: Bytes, c: Bytes, t: Bytes)
    ensures a + b + c + t == a + (b + (c + t))
  {
    Regroup2(a + b, c, t);
    Regroup2(a, b, c + t);
  }

  lemma Regroup4(a: Bytes, b: Bytes, c: Bytes, d: Bytes, t: Bytes)
    ensures a + b + c + d + t == a + (b + (c + (d + t)))
  {
    Regroup2(a + b + c, d, t);
    Regroup3(a, b, c, d + t);
  }

  lemma Regroup5(a: Bytes, b: Bytes, c: Bytes, d: Bytes, e: Bytes, t: Bytes)
    ensures a + b + c + d + e + t == a + (b + (c + (d + (e + t))))
  {
    Regroup2(a + b + c + d, e, t);
    Regroup4(a, b, c, d, e + t);
  }

  lemma Regroup6(a: Bytes, b: Bytes, c: Bytes, d: Bytes, e: Bytes, f: Bytes, t: Bytes)
    ensures a + b + c + d + e + f + t == a + (b + (c + (d + (e + (f + t)))))
  {
    Regroup2(a + b + c + d + e, f, t);
    Regroup5(a, b, c, d, e, f + t);
  }

  lemma Regroup7(a: Bytes, b: Bytes, c: Bytes, d: Bytes, e: Bytes, f: Bytes, g: Bytes, t: Bytes)
    ensures a + b + c + d + e + f + g + t == a + (b + (c + (d + (e + (f + (g + t))))))
  {
    Regroup2(a + b + c + d + e + f, g, t);
    Regroup6(a, b, c, d, e, f, g + t);
  }
}
