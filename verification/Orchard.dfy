/** Orchard and Ironwood bundles on the wire, and which bundle version a branch selects. */
module Orchard {
  import opened ByteStrings
  import opened Io
  import opened Schedules
  import opened Values

  datatype ValuePool = OrchardPool | IronwoodPool

  /** Fixes a bundle's flag grammar, cross-address semantics and circuit. */
  datatype BundleVersion = OrchardInsecureV1 | OrchardV2 | OrchardV3 | IronwoodV3

  datatype Revision = RevisionInsecureV1 | RevisionV2 | RevisionV3

  function ProtocolRevision(b: BranchId): Option<Revision> {
    match b
    case Nu5Branch => Some(RevisionInsecureV1)
    case Nu6Branch => Some(RevisionInsecureV1)
    case Nu6_1Branch => Some(RevisionInsecureV1)
    case Nu6_2Branch => Some(RevisionV2)
    case Nu6_3Branch => Some(RevisionV3)
    case _ => None
  }

  function BundleVersionForBranch(b: BranchId, pool: ValuePool): (v: Option<BundleVersion>)
    ensures v.Some? ==> (v.value.IronwoodV3? <==> pool.IronwoodPool?)
  {
    match (ProtocolRevision(b), pool)
    case (None, _) => None
    case (Some(RevisionInsecureV1), OrchardPool) => Some(OrchardInsecureV1)
    case (Some(RevisionV2), OrchardPool) => Some(OrchardV2)
    case (Some(RevisionV3), OrchardPool) => Some(OrchardV3)
    case (Some(RevisionV3), IronwoodPool) => Some(IronwoodV3)
    case (Some(_), IronwoodPool) => None
  }

  /** The versions that fit the two slots of the v6 format. */
  predicate FitsV6(v: BundleVersion) {
    v == OrchardV3 || v == IronwoodV3
  }

  type OrchardCiphertext = b: Bytes | |b| == 580 witness Zeros(580)
  type OrchardOutCiphertext = b: Bytes | |b| == 80 witness Zeros(80)

  datatype ActionBody = ActionBody(
    cv: Bytes32, nf: Bytes32, rk: Bytes32, cmx: Bytes32, epk: Bytes32, enc: OrchardCiphertext,
    out: OrchardOutCiphertext)

  datatype Action = Action(body: ActionBody, sig: Bytes64)

  datatype OrchardBundle = OrchardBundle(
    actions: seq<Action>, flags: byte, valueBalance: ZatBalance, anchor: Bytes32, proof: Bytes, bindingSig: Bytes64,
    version: BundleVersion)

  /**
   * What the orchard crate accepts: which strings encode elements, which actions and flag bytes
   * are well formed, and which assembled bundles have a proof of the right size.
   */
  datatype Pallas = Pallas(
    cv: Bytes -> bool, nf: Bytes -> bool, rk: Bytes -> bool, cmx: Bytes -> bool, anchor: Bytes -> bool,
    action: ActionBody -> bool, flags: (BundleVersion, byte) -> bool, bundle: OrchardBundle -> bool)

  //////////////////////////////////////////////////////////////////////////////
  // Encoding and parsing
  //////////////////////////////////////////////////////////////////////////////

  function BodyOf(a: Action): ActionBody { a.body }

  function AuthOf(a: Action): Bytes64 { a.sig }

  function EncCiphertexts(a: ActionBody): Bytes {
    a.epk + a.enc + a.out
  }

  function EncActionBody(a: ActionBody): Bytes {
    a.cv + a.nf + a.rk + a.cmx + EncCiphertexts(a)
  }

  function EncBundleData(flags: byte, balance: ZatBalance, anchor: Bytes32, proof: Bytes): Bytes {
    LE(flags, 1) + EncBalance(balance) + anchor + EncBlob(proof)
  }

  function EncAuthData(sigs: seq<Bytes64>, bindingSig: Bytes64): Bytes {
    Concat(sigs, RawSig) + bindingSig
  }

  function EncOrchard(b: Option<OrchardBundle>): Bytes {
    match b
    case None => EncCompactSize(0)
    case Some(b) =>
      EncVector(Map(b.actions, BodyOf), EncActionBody)
      + EncBundleData(b.flags, b.valueBalance, b.anchor, b.proof)
      + EncAuthData(Map(b.actions, AuthOf), b.bindingSig)
  }

  function ParseActionBody(k: Pallas, s: Bytes): Parsed<ActionBody> {
    var (cv, s) :- ParseElement(k.cv, InvalidInput, s);
    var (nf, s) :- ParseElement(k.nf, InvalidInput, s);
    var (rk, s) :- ParseElement(k.rk, InvalidInput, s);
    var (cmx, s) :- ParseElement(k.cmx, InvalidInput, s);
    var (epk, s) :- Take(32, s);
    var (enc, s) :- Take(580, s);
    var (out, s) :- Take(80, s);
    var a := ActionBody(cv, nf, rk, cmx, epk, enc, out);
    if k.action(a) then Done(a, s) else Bad(InvalidData)
  }

  function ActionParser(k: Pallas): Bytes -> Parsed<ActionBody> {
    s => ParseActionBody(k, s)
  }

  datatype BundleData = BundleData(flags: byte, balance: ZatBalance, anchor: Bytes32, proof: Bytes)

  function ParseBundleData(k: Pallas, version: BundleVersion, s: Bytes): Parsed<BundleData> {
    var (flags, s) :- ParseU8(s);
    if !k.flags(version, flags) then Bad(InvalidInput) else
      var (balance, s) :- ParseBalance(s);
      var (anchor, s) :- ParseElement(k.anchor, InvalidInput, s);
      var (proof, s) :- ParseBlob(s);
      Done(BundleData(flags, balance, anchor, proof), s)
  }

  function ParseAuthData(n: nat, s: Bytes): (p: Parsed<(seq<Bytes64>, Bytes64)>)
    ensures p.Done? ==> |p.value.0| == n
  {
    var (sigs, s) :- Many([], n, s, ParseSig64);
    var (bindingSig, s) :- Take(64, s);
    Done((sigs, bindingSig), s)
  }

  /** Puts each signature back with its own action. */
  function Attach(bodies: seq<ActionBody>, sigs: seq<Bytes64>): (actions: seq<Action>)
    requires |bodies| == |sigs|
    ensures |actions| == |bodies|
  {
    seq(|bodies|, i requires 0 <= i < |bodies| => Action(bodies[i], sigs[i]))
  }

  function ParseOrchard(k: Pallas, version: Option<BundleVersion>, s: Bytes): Parsed<Option<OrchardBundle>> {
    var (bodies, s) :- ParseVector(s, ActionParser(k));
    if bodies == [] then Done(None, s)
    else if version.None? then Bad(InvalidData)
    else
      var (d, s) :- ParseBundleData(k, version.value, s);
      var (auth, s) :- ParseAuthData(|bodies|, s);
      var b := OrchardBundle(Attach(bodies, auth.0), d.flags, d.balance, d.anchor, d.proof, auth.1, version.value);
      if k.bundle(b) then Done(Some(b), s) else Bad(InvalidData)
  }

  predicate GoodBody(k: Pallas, a: ActionBody) {
    k.cv(a.cv) && k.nf(a.nf) && k.rk(a.rk) && k.cmx(a.cmx) && k.action(a)
  }

  predicate GoodBodies(k: Pallas, bodies: seq<ActionBody>) {
    |bodies| <= MAX_COMPACT_SIZE && forall a :: a in bodies ==> GoodBody(k, a)
  }

  predicate GoodData(k: Pallas, version: BundleVersion, flags: byte, anchor: Bytes, proof: Bytes) {
    k.flags(version, flags) && k.anchor(anchor) && |proof| <= MAX_COMPACT_SIZE
  }

  /** The bundles a slot of the given version can carry. */
  predicate GoodOrchard(k: Pallas, version: Option<BundleVersion>, b: Option<OrchardBundle>) {
    b.Some? ==>
      && b.value.actions != []
      && GoodBodies(k, Map(b.value.actions, BodyOf))
      && version == Some(b.value.version)
      && GoodData(k, b.value.version, b.value.flags, b.value.anchor, b.value.proof)
      && k.bundle(b.value)
  }

  lemma ActionBodyRoundTrip(k: Pallas, a: ActionBody, t: Bytes)
    requires GoodBody(k, a)
    ensures ParseActionBody(k, EncActionBody(a) + t) == Done(a, t)
  {
    Regroup5(a.cv, a.nf, a.rk, a.cmx, EncCiphertexts(a), t);
    Regroup3(a.epk, a.enc, a.out, t);
  }

  lemma ActionBodyReencodes(k: Pallas, s: Bytes)
    requires ParseActionBody(k, s).Done?
    ensures GoodBody(k, ParseActionBody(k, s).value)
    ensures s == EncActionBody(ParseActionBody(k, s).value) + ParseActionBody(k, s).rest
  {
    var a, t := ParseActionBody(k, s).value, ParseActionBody(k, s).rest;
    Regroup5(a.cv, a.nf, a.rk, a.cmx, EncCiphertexts(a), t);
    Regroup3(a.epk, a.enc, a.out, t);
  }

  lemma BodiesRoundTrip(k: Pallas, bodies: seq<ActionBody>, t: Bytes)
    requires GoodBodies(k, bodies)
    ensures ParseVector(EncVector(bodies, EncActionBody) + t, ActionParser(k)) == Done(bodies, t)
  {
    hide ParseActionBody, EncActionBody, GoodBody;
    forall a | a in bodies ensures RoundTrips(a, EncActionBody, ActionParser(k)) {
      forall u ensures ActionParser(k)(EncActionBody(a) + u) == Done(a, u) {
        ActionBodyRoundTrip(k, a, u);
      }
    }
    VectorRoundTrip(bodies, t, EncActionBody, ActionParser(k));
  }

  lemma BodiesReencode(k: Pallas, s: Bytes)
    requires ParseVector(s, ActionParser(k)).Done?
    ensures GoodBodies(k, ParseVector(s, ActionParser(k)).value)
    ensures s ==
            EncVector(ParseVector(s, ActionParser(k)).value, EncActionBody) + ParseVector(s, ActionParser(k)).rest
  {
    hide ParseActionBody, EncActionBody, GoodBody;
    var dec, good := ActionParser(k), (a: ActionBody) => GoodBody(k, a);
    forall u | dec(u).Done?
      ensures good(dec(u).value) && u == EncActionBody(dec(u).value) + dec(u).rest
    {
      ActionBodyReencodes(k, u);
    }
    assert forall u :: Reencodes(u, EncActionBody, dec);
    VectorReencodes(s, EncActionBody, dec);
    ManyAll([], ParseCompactSize(s).value, ParseCompactSize(s).rest, dec, good);
    assert forall a :: a in ParseVector(s, dec).value ==> good(a);
  }

  lemma BundleDataRoundTrip(k: Pallas, version: BundleVersion, d: BundleData, t: Bytes)
    requires GoodData(k, version, d.flags, d.anchor, d.proof)
    ensures ParseBundleData(k, version, EncBundleData(d.flags, d.balance, d.anchor, d.proof) + t) == Done(d, t)
  {
    hide ParseU8, LE, ParseBalance, EncBalance, ParseBlob, EncBlob;
    var blob := EncBlob(d.proof);
    Regroup4(LE(d.flags, 1), EncBalance(d.balance), d.anchor, blob, t);
    U8RoundTrip(d.flags, EncBalance(d.balance) + (d.anchor + (blob + t)));
    BalanceRoundTrip(d.balance, d.anchor + (blob + t));
    BlobRoundTrip(d.proof, t);
  }

  lemma BundleDataReencodes(k: Pallas, version: BundleVersion, s: Bytes)
    requires ParseBundleData(k, version, s).Done?
    ensures var d := ParseBundleData(k, version, s).value;
      && GoodData(k, version, d.flags, d.anchor, d.proof)
      && s == EncBundleData(d.flags, d.balance, d.anchor, d.proof) + ParseBundleData(k, version, s).rest
  {
    hide ParseU8, LE, ParseBalance, EncBalance, ParseBlob, EncBlob;
    var d, t := ParseBundleData(k, version, s).value, ParseBundleData(k, version, s).rest;
    BlobReencodes(ParseElement(k.anchor, InvalidInput, ParseBalance(ParseU8(s).rest).rest).rest);
    Regroup4(LE(d.flags, 1), EncBalance(d.balance), d.anchor, EncBlob(d.proof), t);
  }

  lemma AuthDataRoundTrip(sigs: seq<Bytes64>, bindingSig: Bytes64, t: Bytes)
    ensures ParseAuthData(|sigs|, EncAuthData(sigs, bindingSig) + t) == Done((sigs, bindingSig), t)
  {
    hide Many;
    Regroup2(Concat(sigs, RawSig), bindingSig, t);
    assert forall p: Bytes64 :: RoundTrips(p, RawSig, ParseSig64);
    ManyRoundTrip(sigs, bindingSig + t, RawSig, ParseSig64);
  }

  lemma AuthDataReencodes(n: nat, s: Bytes)
    requires ParseAuthData(n, s).Done?
    ensures var auth := ParseAuthData(n, s).value;
      s == EncAuthData(auth.0, auth.1) + ParseAuthData(n, s).rest
  {
    hide Many;
    var auth, t := ParseAuthData(n, s).value, ParseAuthData(n, s).rest;
    assert forall u :: Reencodes(u, RawSig, ParseSig64);
    ManyReencodes([], n, s, RawSig, ParseSig64);
    Regroup2(Concat(auth.0, RawSig), auth.1, t);
  }

  lemma AttachUndoesDetach(actions: seq<Action>)
    ensures Attach(Map(actions, BodyOf), Map(actions, AuthOf)) == actions
  {
  }

  lemma DetachUndoesAttach(bodies: seq<ActionBody>, sigs: seq<Bytes64>)
    requires |bodies| == |sigs|
    ensures Map(Attach(bodies, sigs), BodyOf) == bodies && Map(Attach(bodies, sigs), AuthOf) == sigs
  {
  }

  /** Every bundle the slot can carry survives, each signature with its own action. */
  lemma OrchardRoundTrip(k: Pallas, version: Option<BundleVersion>, b: Option<OrchardBundle>, t: Bytes)
    requires GoodOrchard(k, version, b)
    ensures ParseOrchard(k, version, EncOrchard(b) + t) == Done(b, t)
  {
    hide ParseVector, EncVector, ParseBundleData, EncBundleData, ParseAuthData, EncAuthData, EncCompactSize;
    hide GoodBodies, GoodData;
    match b
    case None =>
      EmptyVector(EncActionBody);
      NoBodies(k);
      BodiesRoundTrip(k, [], t);
    case Some(b) =>
      var bodies, sigs := Map(b.actions, BodyOf), Map(b.actions, AuthOf);
      var d := BundleData(b.flags, b.valueBalance, b.anchor, b.proof);
      var data, auth := EncBundleData(d.flags, d.balance, d.anchor, d.proof), EncAuthData(sigs, b.bindingSig);
      Regroup3(EncVector(bodies, EncActionBody), data, auth, t);
      BodiesRoundTrip(k, bodies, data + (auth + t));
      BundleDataRoundTrip(k, b.version, d, auth + t);
      AuthDataRoundTrip(sigs, b.bindingSig, t);
      AttachUndoesDetach(b.actions);
  }

  lemma NoBodies(k: Pallas)
    ensures GoodBodies(k, [])
  {
  }

  /** Only such bundles are ever read, and they are written back byte for byte. */
  lemma OrchardReencodes(k: Pallas, version: Option<BundleVersion>, s: Bytes)
    requires ParseOrchard(k, version, s).Done?
    ensures GoodOrchard(k, version, ParseOrchard(k, version, s).value)
    ensures s == EncOrchard(ParseOrchard(k, version, s).value) + ParseOrchard(k, version, s).rest
  {
    hide ParseVector, EncVector, ParseBundleData, EncBundleData, ParseAuthData, EncAuthData, EncCompactSize;
    hide GoodBodies, GoodData;
    var bodies, s1 := ParseVector(s, ActionParser(k)).value, ParseVector(s, ActionParser(k)).rest;
    BodiesReencode(k, s);
    if bodies == [] {
      EmptyVector(EncActionBody);
    } else {
      var d, s2 := ParseBundleData(k, version.value, s1).value, ParseBundleData(k, version.value, s1).rest;
      var auth, t := ParseAuthData(|bodies|, s2).value, ParseAuthData(|bodies|, s2).rest;
      BundleDataReencodes(k, version.value, s1);
      AuthDataReencodes(|bodies|, s2);
      DetachUndoesAttach(bodies, auth.0);
      Regroup3(EncVector(bodies, EncActionBody), EncBundleData(d.flags, d.balance, d.anchor, d.proof),
               EncAuthData(auth.0, auth.1), t);
    }
  }

  //////////////////////////////////////////////////////////////////////////////
  // Reader and writer
  //////////////////////////////////////////////////////////////////////////////

  method ReadActionBody(r: Reader, k: Pallas) returns (res: Result<ActionBody>)
    modifies r
    ensures Follows(ParseActionBody(k, old(r.rest)), res, r.rest)
  {
    var cv :- ReadElement(r, k.cv, InvalidInput);
    var nf :- ReadElement(r, k.nf, InvalidInput);
    var rk :- ReadElement(r, k.rk, InvalidInput);
    var cmx :- ReadElement(r, k.cmx, InvalidInput);
    var epk :- r.ReadExact(32);
    var enc :- r.ReadExact(580);
    var out :- r.ReadExact(80);
    var a := ActionBody(cv, nf, rk, cmx, epk, enc, out);
    res := if k.action(a) then Success(a) else Failure(InvalidData);
  }

  method ReadBodies(r: Reader, k: Pallas) returns (res: Result<seq<ActionBody>>)
    modifies r
    ensures Follows(ParseVector(old(r.rest), ActionParser(k)), res, r.rest)
  {
    hide ParseActionBody, ParseCompactSize;
    var count :- r.ReadCompactSize();
    ghost var start, dec := r.rest, ActionParser(k);
    var bodies := [];
    for i := 0 to count
      invariant Many([], count, start, dec) == Many(bodies, count - i, r.rest, dec)
    {
      var x :- ReadActionBody(r, k);
      bodies := bodies + [x];
    }
    res := Success(bodies);
  }

  method ReadOrchard(r: Reader, k: Pallas, version: Option<BundleVersion>) returns (res: Result<Option<OrchardBundle>>)
    modifies r
    ensures Follows(ParseOrchard(k, version, old(r.rest)), res, r.rest)
  {
    hide ParseVector, ParseU8, ParseBalance, ParseBlob, Many, Attach;
    var bodies :- ReadBodies(r, k);
    if bodies == [] {
      return Success(None);
    }
    if version.None? {
      return Failure(InvalidData);
    }
    var flags :- r.ReadU8();
    if !k.flags(version.value, flags) {
      return Failure(InvalidInput);
    }
    var balance :- ReadBalance(r);
    var anchor :- ReadElement(r, k.anchor, InvalidInput);
    var proof :- ReadBlob(r);
    var sigs :- ReadSig64s(r, |bodies|);
    var bindingSig :- r.ReadExact(64);
    var b := OrchardBundle(Attach(bodies, sigs), flags, balance, anchor, proof, bindingSig, version.value);
    res := if k.bundle(b) then Success(Some(b)) else Failure(InvalidData);
  }

  method WriteBodies(w: Writer, actions: seq<Action>)
    modifies w
    ensures w.buf == old(w.buf) + EncVector(Map(actions, BodyOf), EncActionBody)
  {
    hide EncCompactSize;
    ghost var bodies := Map(actions, BodyOf);
    w.WriteCompactSize(|actions|);
    ghost var start := w.buf;
    for i := 0 to |actions|
      invariant w.buf == start + Concat(bodies[..i], EncActionBody)
    {
      var a := actions[i].body;
      ghost var before := w.buf;
      w.WriteAll(a.cv);
      w.WriteAll(a.nf);
      w.WriteAll(a.rk);
      w.WriteAll(a.cmx);
      ghost var points := w.buf;
      w.WriteAll(a.epk);
      w.WriteAll(a.enc);
      w.WriteAll(a.out);
      Regroup3(points, a.epk, a.enc, a.out);
      Regroup2(a.epk, a.enc, a.out);
      Regroup5(before, a.cv, a.nf, a.rk, a.cmx, EncCiphertexts(a));
      Regroup4(a.cv, a.nf, a.rk, a.cmx, EncCiphertexts(a));
      Extend(w.buf, start, bodies, i, EncActionBody);
    }
    assert bodies[..|bodies|] == bodies;
    Regroup2(old(w.buf), EncCompactSize(|bodies|), Concat(bodies, EncActionBody));
  }

  method WriteAuths(w: Writer, actions: seq<Action>)
    modifies w
    ensures w.buf == old(w.buf) + Concat(Map(actions, AuthOf), RawSig)
  {
    ghost var sigs := Map(actions, AuthOf);
    for i := 0 to |actions|
      invariant w.buf == old(w.buf) + Concat(sigs[..i], RawSig)
    {
      w.WriteAll(actions[i].sig);
      Extend(w.buf, old(w.buf), sigs, i, RawSig);
    }
    assert sigs[..|sigs|] == sigs;
  }

  method WriteBundleData(w: Writer, b: OrchardBundle)
    modifies w
    ensures w.buf == old(w.buf) + EncBundleData(b.flags, b.valueBalance, b.anchor, b.proof)
  {
    hide LE, EncBalance, EncBlob;
    w.WriteAll(LE(b.flags, 1));
    w.WriteAll(EncBalance(b.valueBalance));
    w.WriteAll(b.anchor);
    WriteBlob(w, b.proof);
    Regroup4(old(w.buf), LE(b.flags, 1), EncBalance(b.valueBalance), b.anchor, EncBlob(b.proof));
    Regroup3(LE(b.flags, 1), EncBalance(b.valueBalance), b.anchor, EncBlob(b.proof));
  }

  method WriteOrchard(w: Writer, b: Option<OrchardBundle>)
    modifies w
    ensures w.buf == old(w.buf) + EncOrchard(b)
  {
    hide EncCompactSize, EncVector, EncBundleData, Map;
    match b {
      case None =>
        w.WriteCompactSize(0);
      case Some(b) =>
        WriteBodies(w, b.actions);
        WriteBundleData(w, b);
        WriteAuths(w, b.actions);
        w.WriteAll(b.bindingSig);
        ghost var bodies := EncVector(Map(b.actions, BodyOf), EncActionBody);
        ghost var data := EncBundleData(b.flags, b.valueBalance, b.anchor, b.proof);
        ghost var sigs := Concat(Map(b.actions, AuthOf), RawSig);
        Regroup4(old(w.buf), bodies, data, sigs, b.bindingSig);
        Regroup3(bodies, data, sigs, b.bindingSig);
        Regroup2(bodies, data, EncAuthData(Map(b.actions, AuthOf), b.bindingSig));
    }
  }

  /** The v6 writer refuses bundles made for other formats. */
  method WriteOrchardV6(w: Writer, b: Option<OrchardBundle>) returns (res: Result<()>)
    modifies w
    ensures res == if b.Some? && !FitsV6(b.value.version) then Failure(InvalidInput) else Success(())
    ensures res.Success? ==> w.buf == old(w.buf) + EncOrchard(b)
  {
    if b.Some? && !(b.value.version == OrchardV3 || b.value.version == IronwoodV3) {
      return Failure(InvalidInput);
    }
    WriteOrchard(w, b);
    res := Success(());
  }
}
