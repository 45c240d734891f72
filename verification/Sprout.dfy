/** JoinSplit descriptions and the Sprout bundle on the wire. */
module Sprout {
  import opened ByteStrings
  import opened Io
  import opened Values

  type GrothProof = b: Bytes | |b| == 192 witness Zeros(192)
  type PhgrProof = b: Bytes | |b| == 296 witness Zeros(296)
  type JsCiphertext = b: Bytes | |b| == 601 witness Zeros(601)

  datatype SproutProof = Groth(groth: GrothProof) | PHGR(phgr: PhgrProof)

  datatype JsDescription = JsDescription(
    vpubOld: Zatoshis, vpubNew: Zatoshis, anchor: Bytes32, nullifiers: (Bytes32, Bytes32),
    commitments: (Bytes32, Bytes32), epk: Bytes32, seed: Bytes32, macs: (Bytes32, Bytes32), proof: SproutProof,
    ciphertexts: (JsCiphertext, JsCiphertext))

  datatype SproutBundle = SproutBundle(joinsplits: seq<JsDescription>, pubkey: Bytes32, sig: Bytes64)

  /** What the JoinSplit moves into (positive) or out of the transparent pool. */
  function NetValue(js: JsDescription): (v: ZatBalance)
    ensures Sub(js.vpubNew, js.vpubOld) == Some(v)
  {
    js.vpubNew - js.vpubOld
  }

  //////////////////////////////////////////////////////////////////////////////
  // Encoding and parsing
  //////////////////////////////////////////////////////////////////////////////

  function ProofBytes(p: SproutProof): Bytes {
    match p
    case Groth(b) => b
    case PHGR(b) => b
  }

  function EncPair(p: (Bytes, Bytes)): Bytes {
    p.0 + p.1
  }

  function ParsePair(n: nat, s: Bytes): (p: Parsed<(Bytes, Bytes)>)
    ensures p.Done? ==> |p.value.0| == |p.value.1| == n && s == EncPair(p.value) + p.rest
  {
    var (a, s1) :- Take(n, s);
    var (b, s2) :- Take(n, s1);
    Regroup2(a, b, s2);
    Done((a, b), s2)
  }

  lemma PairRoundTrip(n: nat, p: (Bytes, Bytes), t: Bytes)
    requires |p.0| == |p.1| == n
    ensures ParsePair(n, EncPair(p) + t) == Done(p, t)
  {
    Regroup2(p.0, p.1, t);
  }

  function EncJsHead(js: JsDescription): Bytes {
    LE(js.vpubOld, 8) + LE(js.vpubNew, 8) + js.anchor + EncPair(js.nullifiers) + EncPair(js.commitments)
  }

  function EncJsTail(js: JsDescription): Bytes {
    js.epk + js.seed + EncPair(js.macs) + ProofBytes(js.proof) + EncPair(js.ciphertexts)
  }

  function EncJs(js: JsDescription): Bytes {
    EncJsHead(js) + EncJsTail(js)
  }

  function ParseSproutProof(groth: bool, s: Bytes): (p: Parsed<SproutProof>)
    ensures p.Done? ==> p.value.Groth? == groth && s == ProofBytes(p.value) + p.rest
  {
    if groth then
      var (b, t) :- Take(192, s);
      Done(Groth(b), t)
    else
      var (b, t) :- Take(296, s);
      Done(PHGR(b), t)
  }

  datatype JsHead = JsHead(
    vpubOld: Zatoshis, vpubNew: Zatoshis, anchor: Bytes32, nullifiers: (Bytes32, Bytes32),
    commitments: (Bytes32, Bytes32))

  function ParseJsHead(s: Bytes): Parsed<JsHead> {
    var (vpubOld, s) :- ParseZatoshis(s);
    var (vpubNew, s) :- ParseZatoshis(s);
    var (anchor, s) :- Take(32, s);
    var (nullifiers, s) :- ParsePair(32, s);
    var (commitments, s) :- ParsePair(32, s);
    Done(JsHead(vpubOld, vpubNew, anchor, (nullifiers.0, nullifiers.1), (commitments.0, commitments.1)), s)
  }

  function ParseJsTail(groth: bool, h: JsHead, s: Bytes): Parsed<JsDescription> {
    var (epk, s) :- Take(32, s);
    var (seed, s) :- Take(32, s);
    var (macs, s) :- ParsePair(32, s);
    var (proof, s) :- ParseSproutProof(groth, s);
    var (ciphertexts, s) :- ParsePair(601, s);
    Done(JsDescription(h.vpubOld, h.vpubNew, h.anchor, h.nullifiers, h.commitments, epk, seed,
                       (macs.0, macs.1), proof, (ciphertexts.0, ciphertexts.1)), s)
  }

  function ParseJs(groth: bool, s: Bytes): Parsed<JsDescription> {
    var (h, s) :- ParseJsHead(s);
    ParseJsTail(groth, h, s)
  }

  function JsParser(groth: bool): Bytes -> Parsed<JsDescription> {
    s => ParseJs(groth, s)
  }

  function HeadOf(js: JsDescription): JsHead {
    JsHead(js.vpubOld, js.vpubNew, js.anchor, js.nullifiers, js.commitments)
  }

  lemma JsHeadRoundTrip(js: JsDescription, t: Bytes)
    ensures ParseJsHead(EncJsHead(js) + t) == Done(HeadOf(js), t)
  {
    hide ParseZatoshis, LE, ParsePair, EncPair;
    var nfs, cms := EncPair(js.nullifiers), EncPair(js.commitments);
    Regroup5(LE(js.vpubOld, 8), LE(js.vpubNew, 8), js.anchor, nfs, cms, t);
    ZatoshisRoundTrip(js.vpubOld, LE(js.vpubNew, 8) + (js.anchor + (nfs + (cms + t))));
    ZatoshisRoundTrip(js.vpubNew, js.anchor + (nfs + (cms + t)));
    PairRoundTrip(32, js.nullifiers, cms + t);
    PairRoundTrip(32, js.commitments, t);
  }

  lemma JsTailRoundTrip(js: JsDescription, t: Bytes)
    ensures ParseJsTail(js.proof.Groth?, HeadOf(js), EncJsTail(js) + t) == Done(js, t)
  {
    hide ParsePair, EncPair;
    var macs, cts := EncPair(js.macs), EncPair(js.ciphertexts);
    Regroup5(js.epk, js.seed, macs, ProofBytes(js.proof), cts, t);
    PairRoundTrip(32, js.macs, ProofBytes(js.proof) + (cts + t));
    PairRoundTrip(601, js.ciphertexts, t);
  }

  lemma JsRoundTrip(js: JsDescription, t: Bytes)
    ensures ParseJs(js.proof.Groth?, EncJs(js) + t) == Done(js, t)
  {
    hide ParseJsHead, EncJsHead, ParseJsTail, EncJsTail;
    Regroup2(EncJsHead(js), EncJsTail(js), t);
    JsHeadRoundTrip(js, EncJsTail(js) + t);
    JsTailRoundTrip(js, t);
  }

  lemma JsReencodes(groth: bool, s: Bytes)
    requires ParseJs(groth, s).Done?
    ensures ParseJs(groth, s).value.proof.Groth? == groth
    ensures s == EncJs(ParseJs(groth, s).value) + ParseJs(groth, s).rest
  {
    hide ParseZatoshis, LE, ParsePair, EncPair, ParseSproutProof;
    var js, t := ParseJs(groth, s).value, ParseJs(groth, s).rest;
    var u := ParseJsHead(s).rest;
    Regroup5(LE(js.vpubOld, 8), LE(js.vpubNew, 8), js.anchor, EncPair(js.nullifiers), EncPair(js.commitments), u);
    Regroup5(js.epk, js.seed, EncPair(js.macs), ProofBytes(js.proof), EncPair(js.ciphertexts), t);
    Regroup2(EncJsHead(js), EncJsTail(js), t);
  }

  function EncSprout(b: Option<SproutBundle>): Bytes {
    match b
    case None => EncCompactSize(0)
    case Some(b) => EncVector(b.joinsplits, EncJs) + b.pubkey + b.sig
  }

  function ParseSprout(groth: bool, s: Bytes): Parsed<Option<SproutBundle>> {
    var (joinsplits, s) :- ParseVector(s, JsParser(groth));
    if joinsplits == [] then Done(None, s) else
      var (pubkey, s) :- Take(32, s);
      var (sig, s) :- Take(64, s);
      Done(Some(SproutBundle(joinsplits, pubkey, sig)), s)
  }

  predicate GoodSprout(groth: bool, b: Option<SproutBundle>) {
    b.Some? ==>
      && 0 < |b.value.joinsplits| <= MAX_COMPACT_SIZE
      && forall js :: js in b.value.joinsplits ==> js.proof.Groth? == groth
  }

  lemma JoinsplitsRoundTrip(groth: bool, xs: seq<JsDescription>, t: Bytes)
    requires |xs| <= MAX_COMPACT_SIZE && forall js :: js in xs ==> js.proof.Groth? == groth
    ensures ParseVector(EncVector(xs, EncJs) + t, JsParser(groth)) == Done(xs, t)
  {
    hide ParseJs, EncJs;
    forall js | js in xs ensures RoundTrips(js, EncJs, JsParser(groth)) {
      forall u ensures JsParser(groth)(EncJs(js) + u) == Done(js, u) {
        JsRoundTrip(js, u);
      }
    }
    VectorRoundTrip(xs, t, EncJs, JsParser(groth));
  }

  lemma JoinsplitsReencode(groth: bool, s: Bytes)
    requires ParseVector(s, JsParser(groth)).Done?
    ensures var xs := ParseVector(s, JsParser(groth)).value;
      |xs| <= MAX_COMPACT_SIZE && forall js :: js in xs ==> js.proof.Groth? == groth
    ensures s == EncVector(ParseVector(s, JsParser(groth)).value, EncJs) + ParseVector(s, JsParser(groth)).rest
  {
    hide ParseJs, EncJs;
    var dec, good := JsParser(groth), (js: JsDescription) => js.proof.Groth? == groth;
    forall u | dec(u).Done?
      ensures good(dec(u).value) && u == EncJs(dec(u).value) + dec(u).rest
    {
      JsReencodes(groth, u);
    }
    assert forall u :: Reencodes(u, EncJs, dec);
    VectorReencodes(s, EncJs, dec);
    ManyAll([], ParseCompactSize(s).value, ParseCompactSize(s).rest, dec, good);
    assert forall js :: js in ParseVector(s, dec).value ==> good(js);
  }

  lemma SproutRoundTrip(groth: bool, b: Option<SproutBundle>, t: Bytes)
    requires GoodSprout(groth, b)
    ensures ParseSprout(groth, EncSprout(b) + t) == Done(b, t)
  {
    hide ParseVector, EncVector, EncCompactSize, JsParser;
    match b
    case None =>
      EmptyVector(EncJs);
      JoinsplitsRoundTrip(groth, [], t);
    case Some(b) =>
      Regroup3(EncVector(b.joinsplits, EncJs), b.pubkey, b.sig, t);
      JoinsplitsRoundTrip(groth, b.joinsplits, b.pubkey + (b.sig + t));
  }

  lemma SproutReencodes(groth: bool, s: Bytes)
    requires ParseSprout(groth, s).Done?
    ensures GoodSprout(groth, ParseSprout(groth, s).value)
    ensures s == EncSprout(ParseSprout(groth, s).value) + ParseSprout(groth, s).rest
  {
    hide ParseVector, EncVector, EncCompactSize, JsParser;
    var b, t := ParseSprout(groth, s).value, ParseSprout(groth, s).rest;
    JoinsplitsReencode(groth, s);
    match b
    case None =>
      EmptyVector(EncJs);
    case Some(b) =>
      Regroup3(EncVector(b.joinsplits, EncJs), b.pubkey, b.sig, t);
  }

  //////////////////////////////////////////////////////////////////////////////
  // Reader and writer
  //////////////////////////////////////////////////////////////////////////////

  method ReadPair(r: Reader, n: nat) returns (res: Result<(Bytes, Bytes)>)
    modifies r
    ensures Follows(ParsePair(n, old(r.rest)), res, r.rest)
  {
    var a :- r.ReadExact(n);
    var b :- r.ReadExact(n);
    res := Success((a, b));
  }

  method ReadJs(r: Reader, groth: bool) returns (res: Result<JsDescription>)
    modifies r
    ensures Follows(ParseJs(groth, old(r.rest)), res, r.rest)
  {
    hide ParsePair, ParseZatoshis;
    var vpubOld :- ReadZatoshis(r);
    var vpubNew :- ReadZatoshis(r);
    var anchor :- r.ReadExact(32);
    var nullifiers :- ReadPair(r, 32);
    var commitments :- ReadPair(r, 32);
    var h := JsHead(vpubOld, vpubNew, anchor, (nullifiers.0, nullifiers.1), (commitments.0, commitments.1));
    res := ReadJsTail(r, groth, h);
  }

  method ReadJsTail(r: Reader, groth: bool, h: JsHead) returns (res: Result<JsDescription>)
    modifies r
    ensures Follows(ParseJsTail(groth, h, old(r.rest)), res, r.rest)
  {
    hide ParsePair;
    var epk :- r.ReadExact(32);
    var seed :- r.ReadExact(32);
    var macs :- ReadPair(r, 32);
    var b :- r.ReadExact(if groth then 192 else 296);
    var proof := if groth then Groth(b) else PHGR(b);
    var ciphertexts :- ReadPair(r, 601);
    res := Success(JsDescription(h.vpubOld, h.vpubNew, h.anchor, h.nullifiers, h.commitments, epk, seed,
                                 (macs.0, macs.1), proof, (ciphertexts.0, ciphertexts.1)));
  }

  method ReadSprout(r: Reader, groth: bool) returns (res: Result<Option<SproutBundle>>)
    modifies r
    ensures Follows(ParseSprout(groth, old(r.rest)), res, r.rest)
  {
    hide ParseVector, ParseJs;
    var joinsplits :- ReadJoinsplits(r, groth);
    if joinsplits == [] {
      return Success(None);
    }
    var pubkey :- r.ReadExact(32);
    var sig :- r.ReadExact(64);
    res := Success(Some(SproutBundle(joinsplits, pubkey, sig)));
  }

  method ReadJoinsplits(r: Reader, groth: bool) returns (res: Result<seq<JsDescription>>)
    modifies r
    ensures Follows(ParseVector(old(r.rest), JsParser(groth)), res, r.rest)
  {
    hide ParseJs, ParseCompactSize;
    var count :- r.ReadCompactSize();
    ghost var start, dec := r.rest, JsParser(groth);
    var joinsplits := [];
    for i := 0 to count
      invariant Many([], count, start, dec) == Many(joinsplits, count - i, r.rest, dec)
    {
      var x :- ReadJs(r, groth);
      joinsplits := joinsplits + [x];
    }
    res := Success(joinsplits);
  }

  method WriteJsHead(w: Writer, js: JsDescription)
    modifies w
    ensures w.buf == old(w.buf) + EncJsHead(js)
  {
    hide LE;
    ghost var before := w.buf;
    w.WriteAll(LE(js.vpubOld, 8));
    w.WriteAll(LE(js.vpubNew, 8));
    w.WriteAll(js.anchor);
    w.WriteAll(js.nullifiers.0);
    w.WriteAll(js.nullifiers.1);
    ghost var fixed := before + LE(js.vpubOld, 8) + LE(js.vpubNew, 8) + js.anchor;
    Regroup2(fixed, js.nullifiers.0, js.nullifiers.1);
    w.WriteAll(js.commitments.0);
    w.WriteAll(js.commitments.1);
    ghost var nfs, cms := EncPair(js.nullifiers), EncPair(js.commitments);
    Regroup2(fixed + nfs, js.commitments.0, js.commitments.1);
    Regroup5(before, LE(js.vpubOld, 8), LE(js.vpubNew, 8), js.anchor, nfs, cms);
    Regroup4(LE(js.vpubOld, 8), LE(js.vpubNew, 8), js.anchor, nfs, cms);
  }

  method WriteJsTail(w: Writer, js: JsDescription)
    modifies w
    ensures w.buf == old(w.buf) + EncJsTail(js)
  {
    ghost var before := w.buf;
    w.WriteAll(js.epk);
    w.WriteAll(js.seed);
    ghost var fixed := w.buf;
    w.WriteAll(js.macs.0);
    w.WriteAll(js.macs.1);
    Regroup2(fixed, js.macs.0, js.macs.1);
    match js.proof {
      case Groth(p) =>
        w.WriteAll(p);
      case PHGR(p) =>
        w.WriteAll(p);
    }
    ghost var proved := w.buf;
    w.WriteAll(js.ciphertexts.0);
    w.WriteAll(js.ciphertexts.1);
    ghost var macs, cts := EncPair(js.macs), EncPair(js.ciphertexts);
    Regroup2(proved, js.ciphertexts.0, js.ciphertexts.1);
    Regroup5(before, js.epk, js.seed, macs, ProofBytes(js.proof), cts);
    Regroup4(js.epk, js.seed, macs, ProofBytes(js.proof), cts);
  }

  method WriteSprout(w: Writer, b: Option<SproutBundle>)
    modifies w
    ensures w.buf == old(w.buf) + EncSprout(b)
  {
    hide EncJsHead, EncJsTail, EncCompactSize;
    match b {
      case None =>
        w.WriteCompactSize(0);
      case Some(b) =>
        ghost var xs := b.joinsplits;
        w.WriteCompactSize(|b.joinsplits|);
        ghost var start := w.buf;
        for i := 0 to |b.joinsplits|
          invariant w.buf == start + Concat(xs[..i], EncJs)
        {
          var js := b.joinsplits[i];
          ghost var before := w.buf;
          WriteJsHead(w, js);
          WriteJsTail(w, js);
          Regroup2(before, EncJsHead(js), EncJsTail(js));
          Extend(w.buf, start, xs, i, EncJs);
        }
        assert xs[..|xs|] == xs;
        Regroup2(old(w.buf), EncCompactSize(|xs|), Concat(xs, EncJs));
        w.WriteAll(b.pubkey);
        w.WriteAll(b.sig);
        Regroup3(old(w.buf), EncVector(xs, EncJs), b.pubkey, b.sig);
        Regroup2(EncVector(xs, EncJs), b.pubkey, b.sig);
    }
  }
}
