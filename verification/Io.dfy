/** Readers, writers, and the parsing functions they are specified by. */
module Io {
  import opened ByteStrings

  datatype Option<+T> = None | Some(value: T)

  datatype IoError = UnexpectedEof | InvalidData | InvalidInput

  /** What a reading method returns. */
  datatype Result<+T> = Success(value: T) | Failure(error: IoError) {
    predicate IsFailure() {
      Failure?
    }

    function PropagateFailure<U>(): Result<U>
      requires Failure?
    {
      Failure(error)
    }

    function Extract(): T
      requires Success?
    {
      value
    }
  }

  /** What a parsing function returns: a value and the bytes after it, or an error. */
  datatype Parsed<+T> = Done(value: T, rest: Bytes) | Bad(error: IoError) {
    predicate IsFailure() {
      Bad?
    }

    function PropagateFailure<U>(): Parsed<U>
      requires Bad?
    {
      Bad(error)
    }

    function Extract(): (T, Bytes)
      requires Done?
    {
      (value, rest)
    }
  }

  /** A reading method did what the parsing function says, and left the reader after the value. */
  ghost predicate Follows<T>(spec: Parsed<T>, res: Result<T>, rest: Bytes) {
    match spec
    case Done(v, t) => res == Success(v) && rest == t
    case Bad(e) => res == Failure(e)
  }

  //////////////////////////////////////////////////////////////////////////////
  // Fixed-width fields
  //////////////////////////////////////////////////////////////////////////////

  function Take(n: nat, s: Bytes): (p: Parsed<Bytes>)
    ensures p.Bad? <==> |s| < n
    ensures p.Done? ==> |p.value| == n && s == p.value + p.rest
  {
    if |s| < n then Bad(UnexpectedEof) else Done(s[..n], s[n..])
  }

  /** An unsigned little-endian integer of `n` bytes. */
  function ParseUint(n: nat, s: Bytes): (p: Parsed<nat>)
    ensures p.Done? ==> p.value < Pow256(n) && s == LE(p.value, n) + p.rest
  {
    var (b, t) :- Take(n, s);
    LEOfUnLE(b);
    Done(UnLE(b), t)
  }

  lemma UintRoundTrip(n: nat, v: nat, t: Bytes)
    requires v < Pow256(n)
    ensures ParseUint(n, LE(v, n) + t) == Done(v, t)
  {
    UnLEOfLE(v, n);
  }

  function ParseU8(s: Bytes): (p: Parsed<u8>)
    ensures p.Done? ==> s == LE(p.value, 1) + p.rest
  {
    Pow256Table();
    var (v, t) :- ParseUint(1, s);
    Done(v, t)
  }

  function ParseU16(s: Bytes): (p: Parsed<u16>)
    ensures p.Done? ==> s == LE(p.value, 2) + p.rest
  {
    Pow256Table();
    var (v, t) :- ParseUint(2, s);
    Done(v, t)
  }

  function ParseU32(s: Bytes): (p: Parsed<u32>)
    ensures p.Done? ==> s == LE(p.value, 4) + p.rest
  {
    Pow256Table();
    var (v, t) :- ParseUint(4, s);
    Done(v, t)
  }

  function ParseU64(s: Bytes): (p: Parsed<u64>)
    ensures p.Done? ==> s == LE(p.value, 8) + p.rest
  {
    Pow256Table();
    var (v, t) :- ParseUint(8, s);
    Done(v, t)
  }

  lemma U8RoundTrip(v: u8, t: Bytes)
    ensures ParseU8(LE(v, 1) + t) == Done(v, t)
  {
    Pow256Table();
    UintRoundTrip(1, v, t);
  }

  lemma U16RoundTrip(v: u16, t: Bytes)
    ensures ParseU16(LE(v, 2) + t) == Done(v, t)
  {
    Pow256Table();
    UintRoundTrip(2, v, t);
  }

  lemma U32RoundTrip(v: u32, t: Bytes)
    ensures ParseU32(LE(v, 4) + t) == Done(v, t)
  {
    Pow256Table();
    UintRoundTrip(4, v, t);
  }

  lemma U64RoundTrip(v: u64, t: Bytes)
    ensures ParseU64(LE(v, 8) + t) == Done(v, t)
  {
    Pow256Table();
    UintRoundTrip(8, v, t);
  }

  //////////////////////////////////////////////////////////////////////////////
  // Field elements and signatures
  //////////////////////////////////////////////////////////////////////////////

  /** A 32-byte element that must satisfy `valid`. */
  function ParseElement(valid: Bytes -> bool, error: IoError, s: Bytes): (p: Parsed<Bytes>)
    ensures p.Done? ==> |p.value| == 32 && valid(p.value) && s == p.value + p.rest
  {
    var (b, t) :- Take(32, s);
    if valid(b) then Done(b, t) else Bad(error)
  }

  function ParseSig64(s: Bytes): Parsed<Bytes64> {
    var (p, t) :- Take(64, s);
    Done(p, t)
  }

  function RawSig(s: Bytes64): Bytes { s }

  //////////////////////////////////////////////////////////////////////////////
  // Lists
  //////////////////////////////////////////////////////////////////////////////

  /** Parses `n` more items after those in `acc`. */
  function Many<T>(acc: seq<T>, n: nat, s: Bytes, dec: Bytes -> Parsed<T>): (p: Parsed<seq<T>>)
    ensures p.Done? ==> |p.value| == |acc| + n
    decreases n
  {
    if n == 0 then Done(acc, s) else
      var (x, t) :- dec(s);
      Many(acc + [x], n - 1, t, dec)
  }

  function Map<T, U>(xs: seq<T>, f: T -> U): (ys: seq<U>)
    ensures |ys| == |xs| && forall i :: 0 <= i < |xs| ==> ys[i] == f(xs[i])
  {
    seq(|xs|, i requires 0 <= i < |xs| => f(xs[i]))
  }

  ghost predicate RoundTrips<T>(x: T, enc: T -> Bytes, dec: Bytes -> Parsed<T>) {
    forall t: Bytes :: dec(enc(x) + t) == Done(x, t)
  }

  lemma {:induction false} ManyAfter<T>(acc: seq<T>, xs: seq<T>, t: Bytes, enc: T -> Bytes, dec: Bytes -> Parsed<T>)
    requires forall x :: x in xs ==> RoundTrips(x, enc, dec)
    ensures Many(acc, |xs|, Concat(xs, enc) + t, dec) == Done(acc + xs, t)
    decreases |xs|
  {
    if xs == [] {
      assert Concat(xs, enc) + t == t && acc + xs == acc;
    } else {
      var more := Concat(xs[1..], enc) + t;
      assert RoundTrips(xs[0], enc, dec);
      assert Concat(xs, enc) + t == enc(xs[0]) + more;
      ManyAfter(acc + [xs[0]], xs[1..], t, enc, dec);
      assert acc + [xs[0]] + xs[1..] == acc + xs;
    }
  }

  lemma ManyRoundTrip<T>(xs: seq<T>, t: Bytes, enc: T -> Bytes, dec: Bytes -> Parsed<T>)
    requires forall x :: x in xs ==> RoundTrips(x, enc, dec)
    ensures Many([], |xs|, Concat(xs, enc) + t, dec) == Done(xs, t)
  {
    ManyAfter([], xs, t, enc, dec);
    assert [] + xs == xs;
  }

  /** What `dec` consumes is the encoding of what it returns. */
  ghost predicate Reencodes<T>(s: Bytes, enc: T -> Bytes, dec: Bytes -> Parsed<T>) {
    dec(s).Done? ==> s == enc(dec(s).value) + dec(s).rest
  }

  lemma {:induction false} ManyReencodes<T>(acc: seq<T>, n: nat, s: Bytes, enc: T -> Bytes, dec: Bytes -> Parsed<T>)
    requires forall u :: Reencodes(u, enc, dec)
    requires Many(acc, n, s, dec).Done?
    ensures acc <= Many(acc, n, s, dec).value
    ensures s == Concat(Many(acc, n, s, dec).value[|acc|..], enc) + Many(acc, n, s, dec).rest
    decreases n
  {
    var p := Many(acc, n, s, dec);
    if n > 0 {
      assert Reencodes(s, enc, dec);
      var x, t := dec(s).value, dec(s).rest;
      ManyReencodes(acc + [x], n - 1, t, enc, dec);
      assert p.value[|acc|..] == [x] + p.value[|acc| + 1..];
      assert Concat(p.value[|acc|..], enc) == enc(x) + Concat(p.value[|acc| + 1..], enc);
    }
  }

  /** Every parsed item has whatever property the item parser guarantees. */
  lemma {:induction false} ManyAll<T>(acc: seq<T>, n: nat, s: Bytes, dec: Bytes -> Parsed<T>, good: T -> bool)
    requires forall u :: dec(u).Done? ==> good(dec(u).value)
    requires forall x :: x in acc ==> good(x)
    ensures Many(acc, n, s, dec).Done? ==> forall x :: x in Many(acc, n, s, dec).value ==> good(x)
    decreases n
  {
    if n > 0 && dec(s).Done? {
      ManyAll(acc + [dec(s).value], n - 1, dec(s).rest, dec, good);
    }
  }

  //////////////////////////////////////////////////////////////////////////////
  // CompactSize
  //////////////////////////////////////////////////////////////////////////////

  const MAX_COMPACT_SIZE: nat := 0x0200_0000

  function EncCompactSize(n: nat): Bytes {
    if n < 253 then LE(n, 1)
    else if n <= 0xffff then [253] + LE(n, 2)
    else if n <= 0xffff_ffff then [254] + LE(n, 4)
    else [255] + LE(n, 8)
  }

  /** Only the shortest form of a size, and only sizes up to `MAX_COMPACT_SIZE`, are accepted. */
  function ParseCompactSize(s: Bytes): (p: Parsed<nat>)
  {
    var (flag, t) :- ParseU8(s);
    var (n, u) :-
      if flag < 253 then Done(flag as int, t)
      else if flag == 253 then ParseLong(2, 253, t)
      else if flag == 254 then ParseLong(4, 0x1_0000, t)
      else ParseLong(8, 0x1_0000_0000, t);
    if n > MAX_COMPACT_SIZE then Bad(InvalidInput) else Done(n, u)
  }

  function ParseLong(width: nat, least: nat, s: Bytes): Parsed<nat> {
    var (n, t) :- ParseUint(width, s);
    if n < least then Bad(InvalidInput) else Done(n, t)
  }

  lemma CompactSizeRoundTrip(n: nat, t: Bytes)
    requires n <= MAX_COMPACT_SIZE
    ensures ParseCompactSize(EncCompactSize(n) + t) == Done(n, t)
  {
    Pow256Table();
    if n < 253 {
      U8RoundTrip(n, t);
    } else {
      var flag, width := if n <= 0xffff then 253 else 254, if n <= 0xffff then 2 else 4;
      var u := LE(n, width) + t;
      assert LE(flag, 1) == [flag];
      assert EncCompactSize(n) + t == LE(flag, 1) + u;
      U8RoundTrip(flag, u);
      UintRoundTrip(width, n, t);
    }
  }

  lemma LongSizeRefused(n: nat, t: Bytes)
    requires n > MAX_COMPACT_SIZE
    ensures ParseCompactSize(EncCompactSize(n) + t).Bad?
  {
    Pow256Table();
    var flag, width := if n <= 0xffff_ffff then 254 else 255, if n <= 0xffff_ffff then 4 else 8;
    var u := LE(n, width) + t;
    assert LE(flag, 1) == [flag];
    assert EncCompactSize(n) + t == LE(flag, 1) + u;
    U8RoundTrip(flag, u);
    if n <= 0xffff_ffff {
      UintRoundTrip(width, n, t);
    }
  }

  lemma CompactSizeReencodes(s: Bytes)
    ensures ParseCompactSize(s).Done? ==>
              ParseCompactSize(s).value <= MAX_COMPACT_SIZE &&
              s == EncCompactSize(ParseCompactSize(s).value) + ParseCompactSize(s).rest
  {
    Pow256Table();
    var p := ParseCompactSize(s);
    if p.Done? {
      var flag, t := ParseU8(s).value, ParseU8(s).rest;
      assert LE(flag, 1) == [flag];
      if flag >= 253 {
        var width := if flag == 253 then 2 else if flag == 254 then 4 else 8;
        assert t == LE(p.value, width) + p.rest;
        assert s == [flag] + LE(p.value, width) + p.rest;
      }
    }
  }

  //////////////////////////////////////////////////////////////////////////////
  // Vectors
  //////////////////////////////////////////////////////////////////////////////

  /** A byte vector with its size in front. */
  function EncBlob(b: Bytes): Bytes {
    EncCompactSize(|b|) + b
  }

  function ParseBlob(s: Bytes): Parsed<Bytes> {
    var (n, s) :- ParseCompactSize(s);
    Take(n, s)
  }

  lemma BlobRoundTrip(b: Bytes, t: Bytes)
    requires |b| <= MAX_COMPACT_SIZE
    ensures ParseBlob(EncBlob(b) + t) == Done(b, t)
  {
    Regroup2(EncCompactSize(|b|), b, t);
    CompactSizeRoundTrip(|b|, b + t);
  }

  lemma BlobReencodes(s: Bytes)
    requires ParseBlob(s).Done?
    ensures |ParseBlob(s).value| <= MAX_COMPACT_SIZE
    ensures s == EncBlob(ParseBlob(s).value) + ParseBlob(s).rest
  {
    CompactSizeReencodes(s);
    var b, t := ParseBlob(s).value, ParseBlob(s).rest;
    Regroup2(EncCompactSize(|b|), b, t);
  }

  /** A vector of items with their count in front. */
  function EncVector<T>(xs: seq<T>, enc: T -> Bytes): Bytes {
    EncCompactSize(|xs|) + Concat(xs, enc)
  }

  function ParseVector<T>(s: Bytes, dec: Bytes -> Parsed<T>): Parsed<seq<T>> {
    var (n, s) :- ParseCompactSize(s);
    Many([], n, s, dec)
  }

  lemma VectorRoundTrip<T>(xs: seq<T>, t: Bytes, enc: T -> Bytes, dec: Bytes -> Parsed<T>)
    requires |xs| <= MAX_COMPACT_SIZE
    requires forall x :: x in xs ==> RoundTrips(x, enc, dec)
    ensures ParseVector(EncVector(xs, enc) + t, dec) == Done(xs, t)
  {
    var all := Concat(xs, enc);
    Regroup2(EncCompactSize(|xs|), all, t);
    CompactSizeRoundTrip(|xs|, all + t);
    ManyRoundTrip(xs, t, enc, dec);
  }

  lemma VectorReencodes<T>(s: Bytes, enc: T -> Bytes, dec: Bytes -> Parsed<T>)
    requires forall u :: Reencodes(u, enc, dec)
    requires ParseVector(s, dec).Done?
    ensures |ParseVector(s, dec).value| <= MAX_COMPACT_SIZE
    ensures s == EncVector(ParseVector(s, dec).value, enc) + ParseVector(s, dec).rest
  {
    CompactSizeReencodes(s);
    var n, u := ParseCompactSize(s).value, ParseCompactSize(s).rest;
    ManyReencodes([], n, u, enc, dec);
    var xs, t := ParseVector(s, dec).value, ParseVector(s, dec).rest;
    Regroup2(EncCompactSize(|xs|), Concat(xs, enc), t);
  }

  lemma EmptyVector<T>(enc: T -> Bytes)
    ensures EncVector([], enc) == EncCompactSize(0)
  {
  }

  /** Writing item `k` after the first `k` items makes the first `k + 1`. */
  lemma Extend<T>(buf: Bytes, start: Bytes, xs: seq<T>, k: nat, enc: T -> Bytes)
    requires k < |xs| && buf == start + Concat(xs[..k], enc) + enc(xs[k])
    ensures buf == start + Concat(xs[..k + 1], enc)
  {
    ConcatSnoc(xs[..k], xs[k], enc);
    assert xs[..k] + [xs[k]] == xs[..k + 1];
    Regroup2(start, Concat(xs[..k], enc), enc(xs[k]));
  }

  /** Concatenating encodings that say where they end, and are not empty, loses nothing. */
  lemma {:induction false} ConcatInjective<T(!new)>(xs: seq<T>, ys: seq<T>, enc: T -> Bytes, dec: Bytes -> Parsed<T>)
    requires forall x :: x in xs || x in ys ==> RoundTrips(x, enc, dec) && enc(x) != []
    requires Concat(xs, enc) == Concat(ys, enc)
    ensures xs == ys
  {
    if xs == [] || ys == [] {
      assert xs == ys;
    } else {
      assert RoundTrips(xs[0], enc, dec) && RoundTrips(ys[0], enc, dec);
      assert dec(Concat(xs, enc)) == Done(xs[0], Concat(xs[1..], enc));
      assert dec(Concat(ys, enc)) == Done(ys[0], Concat(ys[1..], enc));
      ConcatInjective(xs[1..], ys[1..], enc, dec);
      assert xs == [xs[0]] + xs[1..] && ys == [ys[0]] + ys[1..];
    }
  }

  /** Lists whose items encode alike, one by one, encode alike. */
  lemma {:induction false} ConcatAlike<T, U>(xs: seq<T>, enc: T -> Bytes, ys: seq<U>, enc': U -> Bytes)
    requires |xs| == |ys| && forall i :: 0 <= i < |xs| ==> enc(xs[i]) == enc'(ys[i])
    ensures Concat(xs, enc) == Concat(ys, enc')
  {
    if xs != [] {
      ConcatAlike(xs[1..], enc, ys[1..], enc');
    }
  }

  //////////////////////////////////////////////////////////////////////////////
  // Readers and writers
  //////////////////////////////////////////////////////////////////////////////

  /** A byte source that shrinks from the front as it is read. */
  class Reader {
    var rest: Bytes

    constructor (data: Bytes)
      ensures rest == data
    {
      rest := data;
    }

    method ReadExact(n: nat) returns (res: Result<Bytes>)
      modifies this
      ensures Follows(Take(n, old(rest)), res, rest)
    {
      if |rest| < n {
        return Failure(UnexpectedEof);
      }
      res := Success(rest[..n]);
      rest := rest[n..];
    }

    method ReadUint(n: nat) returns (res: Result<nat>)
      modifies this
      ensures Follows(ParseUint(n, old(rest)), res, rest)
    {
      var b :- ReadExact(n);
      res := Success(UnLE(b));
    }

    method ReadU8() returns (res: Result<u8>)
      modifies this
      ensures Follows(ParseU8(old(rest)), res, rest)
    {
      Pow256Table();
      var v :- ReadUint(1);
      res := Success(v);
    }

    method ReadU16() returns (res: Result<u16>)
      modifies this
      ensures Follows(ParseU16(old(rest)), res, rest)
    {
      Pow256Table();
      var v :- ReadUint(2);
      res := Success(v);
    }

    method ReadU32() returns (res: Result<u32>)
      modifies this
      ensures Follows(ParseU32(old(rest)), res, rest)
    {
      Pow256Table();
      var v :- ReadUint(4);
      res := Success(v);
    }

    method ReadU64() returns (res: Result<u64>)
      modifies this
      ensures Follows(ParseU64(old(rest)), res, rest)
    {
      Pow256Table();
      var v :- ReadUint(8);
      res := Success(v);
    }

    method ReadCompactSize() returns (res: Result<nat>)
      modifies this
      ensures Follows(ParseCompactSize(old(rest)), res, rest)
    {
      var flag :- ReadU8();
      var n := flag as int;
      if flag >= 253 {
        n :- ReadUint(if flag == 253 then 2 else if flag == 254 then 4 else 8);
        if n < (if flag == 253 then 253 else if flag == 254 then 0x1_0000 else 0x1_0000_0000) {
          return Failure(InvalidInput);
        }
      }
      if n > MAX_COMPACT_SIZE {
        return Failure(InvalidInput);
      }
      res := Success(n);
    }
  }

  method ReadBlob(r: Reader) returns (res: Result<Bytes>)
    modifies r
    ensures Follows(ParseBlob(old(r.rest)), res, r.rest)
  {
    var n :- r.ReadCompactSize();
    res := r.ReadExact(n);
  }

  /** A growing buffer. */
  class Writer {
    var buf: Bytes

    constructor ()
      ensures buf == []
    {
      buf := [];
    }

    method WriteAll(b: Bytes)
      modifies this
      ensures buf == old(buf) + b
    {
      buf := buf + b;
    }

    method WriteCompactSize(n: nat)
      modifies this
      ensures buf == old(buf) + EncCompactSize(n)
    {
      if n < 253 {
        WriteAll(LE(n, 1));
      } else if n <= 0xffff {
        WriteAll([253]);
        WriteAll(LE(n, 2));
        Regroup2(old(buf), [253], LE(n, 2));
      } else if n <= 0xffff_ffff {
        WriteAll([254]);
        WriteAll(LE(n, 4));
        Regroup2(old(buf), [254], LE(n, 4));
      } else {
        WriteAll([255]);
        WriteAll(LE(n, 8));
        Regroup2(old(buf), [255], LE(n, 8));
      }
    }
  }

  method WriteBlob(w: Writer, b: Bytes)
    modifies w
    ensures w.buf == old(w.buf) + EncBlob(b)
  {
    w.WriteCompactSize(|b|);
    w.WriteAll(b);
    Regroup2(old(w.buf), EncCompactSize(|b|), b);
  }

  method ReadElement(r: Reader, valid: Bytes -> bool, error: IoError) returns (res: Result<Bytes>)
    modifies r
    ensures Follows(ParseElement(valid, error, old(r.rest)), res, r.rest)
  {
    var b :- r.ReadExact(32);
    res := if valid(b) then Success(b) else Failure(error);
  }

  method ReadSig64s(r: Reader, count: nat) returns (res: Result<seq<Bytes64>>)
    modifies r
    ensures Follows(Many([], count, old(r.rest), ParseSig64), res, r.rest)
  {
    var sigs: seq<Bytes64> := [];
    for i := 0 to count
      invariant Many([], count, old(r.rest), ParseSig64) == Many(sigs, count - i, r.rest, ParseSig64)
    {
      var x :- r.ReadExact(64);
      sigs := sigs + [x];
    }
    res := Success(sigs);
  }
}
