/** Transparent inputs and outputs on the wire. */
module Transparent {
  import opened ByteStrings
  import opened Io
  import opened Values

  datatype OutPoint = OutPoint(hash: Bytes32, n: u32)

  datatype TxIn = TxIn(prevout: OutPoint, scriptSig: Bytes, sequence: u32)

  datatype TxOut = TxOut(value: Zatoshis, script: Bytes)

  datatype TransparentBundle = TransparentBundle(vin: seq<TxIn>, vout: seq<TxOut>)

  /** A single input that spends the null outpoint. */
  predicate IsCoinbase(b: TransparentBundle) {
    |b.vin| == 1 && b.vin[0].prevout == OutPoint(Zeros(32), 0xffff_ffff)
  }

  //////////////////////////////////////////////////////////////////////////////
  // Encoding and parsing
  //////////////////////////////////////////////////////////////////////////////

  function EncOutPoint(o: OutPoint): (b: Bytes)
    ensures |b| == 36
  {
    o.hash + LE(o.n, 4)
  }

  function EncTxIn(i: TxIn): Bytes {
    EncOutPoint(i.prevout) + EncBlob(i.scriptSig) + LE(i.sequence, 4)
  }

  function EncTxOut(o: TxOut): Bytes {
    LE(o.value, 8) + EncBlob(o.script)
  }

  function ParseOutPoint(s: Bytes): (p: Parsed<OutPoint>)
    ensures p.Done? ==> s == EncOutPoint(p.value) + p.rest
  {
    var (hash, s1) :- Take(32, s);
    var (n, s2) :- ParseU32(s1);
    Regroup2(hash, LE(n, 4), s2);
    Done(OutPoint(hash, n), s2)
  }

  function ParseTxIn(s: Bytes): Parsed<TxIn> {
    var (prevout, s) :- ParseOutPoint(s);
    var (scriptSig, s) :- ParseBlob(s);
    var (sequence, s) :- ParseU32(s);
    Done(TxIn(prevout, scriptSig, sequence), s)
  }

  function ParseTxOut(s: Bytes): Parsed<TxOut> {
    var (value, s) :- ParseZatoshis(s);
    var (script, s) :- ParseBlob(s);
    Done(TxOut(value, script), s)
  }

  predicate GoodTxIn(i: TxIn) {
    |i.scriptSig| <= MAX_COMPACT_SIZE
  }

  predicate GoodTxOut(o: TxOut) {
    |o.script| <= MAX_COMPACT_SIZE
  }

  lemma OutPointRoundTrip(o: OutPoint, t: Bytes)
    ensures ParseOutPoint(EncOutPoint(o) + t) == Done(o, t)
  {
    Regroup2(o.hash, LE(o.n, 4), t);
    U32RoundTrip(o.n, t);
  }

  lemma TxInRoundTrip(i: TxIn, t: Bytes)
    requires GoodTxIn(i)
    ensures ParseTxIn(EncTxIn(i) + t) == Done(i, t)
  {
    hide ParseOutPoint, ParseBlob, EncBlob, EncOutPoint;
    Regroup3(EncOutPoint(i.prevout), EncBlob(i.scriptSig), LE(i.sequence, 4), t);
    OutPointRoundTrip(i.prevout, EncBlob(i.scriptSig) + (LE(i.sequence, 4) + t));
    BlobRoundTrip(i.scriptSig, LE(i.sequence, 4) + t);
    U32RoundTrip(i.sequence, t);
  }

  lemma TxInReencodes(s: Bytes)
    requires ParseTxIn(s).Done?
    ensures GoodTxIn(ParseTxIn(s).value)
    ensures s == EncTxIn(ParseTxIn(s).value) + ParseTxIn(s).rest
  {
    hide ParseOutPoint, ParseBlob, EncBlob, EncOutPoint;
    var i, t := ParseTxIn(s).value, ParseTxIn(s).rest;
    BlobReencodes(ParseOutPoint(s).rest);
    Regroup3(EncOutPoint(i.prevout), EncBlob(i.scriptSig), LE(i.sequence, 4), t);
  }

  lemma TxOutRoundTrip(o: TxOut, t: Bytes)
    requires GoodTxOut(o)
    ensures ParseTxOut(EncTxOut(o) + t) == Done(o, t)
  {
    hide ParseZatoshis, ParseBlob, EncBlob;
    Regroup2(LE(o.value, 8), EncBlob(o.script), t);
    ZatoshisRoundTrip(o.value, EncBlob(o.script) + t);
    BlobRoundTrip(o.script, t);
  }

  lemma TxOutReencodes(s: Bytes)
    requires ParseTxOut(s).Done?
    ensures GoodTxOut(ParseTxOut(s).value)
    ensures s == EncTxOut(ParseTxOut(s).value) + ParseTxOut(s).rest
  {
    hide ParseZatoshis, ParseBlob, EncBlob;
    var o, t := ParseTxOut(s).value, ParseTxOut(s).rest;
    BlobReencodes(ParseZatoshis(s).rest);
    Regroup2(LE(o.value, 8), EncBlob(o.script), t);
  }

  //////////////////////////////////////////////////////////////////////////////
  // Bundles
  //////////////////////////////////////////////////////////////////////////////

  function Vin(b: Option<TransparentBundle>): seq<TxIn> {
    if b.Some? then b.value.vin else []
  }

  function Vout(b: Option<TransparentBundle>): seq<TxOut> {
    if b.Some? then b.value.vout else []
  }

  function EncTransparent(b: Option<TransparentBundle>): Bytes {
    EncVector(Vin(b), EncTxIn) + EncVector(Vout(b), EncTxOut)
  }

  function ParseTransparent(s: Bytes): Parsed<Option<TransparentBundle>> {
    var (vin, s) :- ParseVector(s, ParseTxIn);
    var (vout, s) :- ParseVector(s, ParseTxOut);
    Done(if vin == [] && vout == [] then None else Some(TransparentBundle(vin, vout)), s)
  }

  predicate GoodInputs(vin: seq<TxIn>) {
    |vin| <= MAX_COMPACT_SIZE && forall i :: i in vin ==> GoodTxIn(i)
  }

  predicate GoodOutputs(vout: seq<TxOut>) {
    |vout| <= MAX_COMPACT_SIZE && forall o :: o in vout ==> GoodTxOut(o)
  }

  /** The bundles that survive the wire: never both lists empty. */
  predicate GoodTransparent(b: Option<TransparentBundle>) {
    b.Some? ==> GoodInputs(b.value.vin) && GoodOutputs(b.value.vout) && !(b.value.vin == [] && b.value.vout == [])
  }

  lemma InputsRoundTrip(vin: seq<TxIn>, t: Bytes)
    requires GoodInputs(vin)
    ensures ParseVector(EncVector(vin, EncTxIn) + t, ParseTxIn) == Done(vin, t)
  {
    hide ParseTxIn, EncTxIn;
    forall i | i in vin ensures RoundTrips(i, EncTxIn, ParseTxIn) {
      forall u ensures ParseTxIn(EncTxIn(i) + u) == Done(i, u) {
        TxInRoundTrip(i, u);
      }
    }
    VectorRoundTrip(vin, t, EncTxIn, ParseTxIn);
  }

  lemma OutputsRoundTrip(vout: seq<TxOut>, t: Bytes)
    requires GoodOutputs(vout)
    ensures ParseVector(EncVector(vout, EncTxOut) + t, ParseTxOut) == Done(vout, t)
  {
    hide ParseTxOut, EncTxOut;
    forall o | o in vout ensures RoundTrips(o, EncTxOut, ParseTxOut) {
      forall u ensures ParseTxOut(EncTxOut(o) + u) == Done(o, u) {
        TxOutRoundTrip(o, u);
      }
    }
    VectorRoundTrip(vout, t, EncTxOut, ParseTxOut);
  }

  lemma InputsReencode(s: Bytes)
    requires ParseVector(s, ParseTxIn).Done?
    ensures GoodInputs(ParseVector(s, ParseTxIn).value)
    ensures s == EncVector(ParseVector(s, ParseTxIn).value, EncTxIn) + ParseVector(s, ParseTxIn).rest
  {
    hide ParseTxIn, EncTxIn;
    forall u | ParseTxIn(u).Done?
      ensures GoodTxIn(ParseTxIn(u).value) && u == EncTxIn(ParseTxIn(u).value) + ParseTxIn(u).rest
    {
      TxInReencodes(u);
    }
    assert forall u :: Reencodes(u, EncTxIn, ParseTxIn);
    VectorReencodes(s, EncTxIn, ParseTxIn);
    ManyAll([], ParseCompactSize(s).value, ParseCompactSize(s).rest, ParseTxIn, GoodTxIn);
  }

  lemma OutputsReencode(s: Bytes)
    requires ParseVector(s, ParseTxOut).Done?
    ensures GoodOutputs(ParseVector(s, ParseTxOut).value)
    ensures s == EncVector(ParseVector(s, ParseTxOut).value, EncTxOut) + ParseVector(s, ParseTxOut).rest
  {
    hide ParseTxOut, EncTxOut;
    forall u | ParseTxOut(u).Done?
      ensures GoodTxOut(ParseTxOut(u).value) && u == EncTxOut(ParseTxOut(u).value) + ParseTxOut(u).rest
    {
      TxOutReencodes(u);
    }
    assert forall u :: Reencodes(u, EncTxOut, ParseTxOut);
    VectorReencodes(s, EncTxOut, ParseTxOut);
    ManyAll([], ParseCompactSize(s).value, ParseCompactSize(s).rest, ParseTxOut, GoodTxOut);
  }

  lemma TransparentRoundTrip(b: Option<TransparentBundle>, t: Bytes)
    requires GoodTransparent(b)
    ensures ParseTransparent(EncTransparent(b) + t) == Done(b, t)
  {
    hide ParseVector, EncVector, GoodTxIn, GoodTxOut;
    var outputs := EncVector(Vout(b), EncTxOut);
    Regroup2(EncVector(Vin(b), EncTxIn), outputs, t);
    InputsRoundTrip(Vin(b), outputs + t);
    OutputsRoundTrip(Vout(b), t);
  }

  lemma TransparentReencodes(s: Bytes)
    requires ParseTransparent(s).Done?
    ensures GoodTransparent(ParseTransparent(s).value)
    ensures s == EncTransparent(ParseTransparent(s).value) + ParseTransparent(s).rest
  {
    hide ParseVector, EncVector, GoodInputs, GoodOutputs;
    var b, t := ParseTransparent(s).value, ParseTransparent(s).rest;
    InputsReencode(s);
    OutputsReencode(ParseVector(s, ParseTxIn).rest);
    Regroup2(EncVector(Vin(b), EncTxIn), EncVector(Vout(b), EncTxOut), t);
  }

  //////////////////////////////////////////////////////////////////////////////
  // Reader and writer
  //////////////////////////////////////////////////////////////////////////////

  method ReadTxIn(r: Reader) returns (res: Result<TxIn>)
    modifies r
    ensures Follows(ParseTxIn(old(r.rest)), res, r.rest)
  {
    hide ParseBlob;
    var hash :- r.ReadExact(32);
    var n :- r.ReadU32();
    var scriptSig :- ReadBlob(r);
    var sequence :- r.ReadU32();
    res := Success(TxIn(OutPoint(hash, n), scriptSig, sequence));
  }

  method ReadTxOut(r: Reader) returns (res: Result<TxOut>)
    modifies r
    ensures Follows(ParseTxOut(old(r.rest)), res, r.rest)
  {
    hide ParseBlob;
    var value :- ReadZatoshis(r);
    var script :- ReadBlob(r);
    res := Success(TxOut(value, script));
  }

  method ReadInputs(r: Reader) returns (res: Result<seq<TxIn>>)
    modifies r
    ensures Follows(ParseVector(old(r.rest), ParseTxIn), res, r.rest)
  {
    hide ParseTxIn, ParseCompactSize;
    var count :- r.ReadCompactSize();
    ghost var start := r.rest;
    var vin := [];
    for i := 0 to count
      invariant Many([], count, start, ParseTxIn) == Many(vin, count - i, r.rest, ParseTxIn)
    {
      var x :- ReadTxIn(r);
      vin := vin + [x];
    }
    res := Success(vin);
  }

  method ReadOutputs(r: Reader) returns (res: Result<seq<TxOut>>)
    modifies r
    ensures Follows(ParseVector(old(r.rest), ParseTxOut), res, r.rest)
  {
    hide ParseTxOut, ParseCompactSize;
    var count :- r.ReadCompactSize();
    ghost var start := r.rest;
    var vout := [];
    for i := 0 to count
      invariant Many([], count, start, ParseTxOut) == Many(vout, count - i, r.rest, ParseTxOut)
    {
      var x :- ReadTxOut(r);
      vout := vout + [x];
    }
    res := Success(vout);
  }

  method ReadTransparent(r: Reader) returns (res: Result<Option<TransparentBundle>>)
    modifies r
    ensures Follows(ParseTransparent(old(r.rest)), res, r.rest)
  {
    hide ParseVector;
    var vin :- ReadInputs(r);
    var vout :- ReadOutputs(r);
    res := Success(if vin == [] && vout == [] then None else Some(TransparentBundle(vin, vout)));
  }

  method WriteInputs(w: Writer, vin: seq<TxIn>)
    modifies w
    ensures w.buf == old(w.buf) + EncVector(vin, EncTxIn)
  {
    hide EncCompactSize, EncBlob;
    w.WriteCompactSize(|vin|);
    ghost var start := w.buf;
    for k := 0 to |vin|
      invariant w.buf == start + Concat(vin[..k], EncTxIn)
    {
      var i := vin[k];
      ghost var before := w.buf;
      w.WriteAll(i.prevout.hash);
      w.WriteAll(LE(i.prevout.n, 4));
      WriteBlob(w, i.scriptSig);
      w.WriteAll(LE(i.sequence, 4));
      Regroup4(before, i.prevout.hash, LE(i.prevout.n, 4), EncBlob(i.scriptSig), LE(i.sequence, 4));
      Regroup3(i.prevout.hash, LE(i.prevout.n, 4), EncBlob(i.scriptSig), LE(i.sequence, 4));
      Extend(w.buf, start, vin, k, EncTxIn);
    }
    assert vin[..|vin|] == vin;
    Regroup2(old(w.buf), EncCompactSize(|vin|), Concat(vin, EncTxIn));
  }

  method WriteOutputs(w: Writer, vout: seq<TxOut>)
    modifies w
    ensures w.buf == old(w.buf) + EncVector(vout, EncTxOut)
  {
    hide EncCompactSize, EncBlob;
    w.WriteCompactSize(|vout|);
    ghost var start := w.buf;
    for k := 0 to |vout|
      invariant w.buf == start + Concat(vout[..k], EncTxOut)
    {
      var o := vout[k];
      ghost var before := w.buf;
      w.WriteAll(LE(o.value, 8));
      WriteBlob(w, o.script);
      Regroup2(before, LE(o.value, 8), EncBlob(o.script));
      Extend(w.buf, start, vout, k, EncTxOut);
    }
    assert vout[..|vout|] == vout;
    Regroup2(old(w.buf), EncCompactSize(|vout|), Concat(vout, EncTxOut));
  }

  method WriteTransparent(w: Writer, b: Option<TransparentBundle>)
    modifies w
    ensures w.buf == old(w.buf) + EncTransparent(b)
  {
    hide EncVector;
    match b {
      case Some(bundle) =>
        WriteInputs(w, bundle.vin);
        WriteOutputs(w, bundle.vout);
      case None =>
        w.WriteCompactSize(0);
        w.WriteCompactSize(0);
        EmptyVector<TxIn>(EncTxIn);
        EmptyVector<TxOut>(EncTxOut);
    }
    Regroup2(old(w.buf), EncVector(Vin(b), EncTxIn), EncVector(Vout(b), EncTxOut));
  }
}
