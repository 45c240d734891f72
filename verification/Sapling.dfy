/** Sapling bundles on the wire: the transposed v5 layout and the v4 layout. */
module Sapling {
  import opened ByteStrings
  import opened Io
  import opened Values

  type Proof = b: Bytes | |b| == 192 witness Zeros(192)
  type EncCiphertext = b: Bytes | |b| == 580 witness Zeros(580)
  type OutCiphertext = b: Bytes | |b| == 80 witness Zeros(80)

  /** Which 32-byte strings encode curve and field elements; elements are their encodings here. */
  datatype Curves = Curves(cv: Bytes -> bool, base: Bytes -> bool, cmu: Bytes -> bool, rk: Bytes -> bool)

  datatype Spend = Spend(cv: Bytes32, anchor: Bytes32, nullifier: Bytes32, rk: Bytes32, proof: Proof, sig: Bytes64)

  datatype Output = Output(
    cv: Bytes32, cmu: Bytes32, epk: Bytes32, enc: EncCiphertext, out: OutCiphertext, proof: Proof)

  datatype SaplingBundle = SaplingBundle(
    spends: seq<Spend>, outputs: seq<Output>, valueBalance: ZatBalance, bindingSig: Bytes64)

  /** The parts of a spend and an output that v5 writes first. */
  datatype SpendV5 = SpendV5(cv: Bytes32, nullifier: Bytes32, rk: Bytes32)

  datatype OutputV5 = OutputV5(cv: Bytes32, cmu: Bytes32, epk: Bytes32, enc: EncCiphertext, out: OutCiphertext)

  //////////////////////////////////////////////////////////////////////////////
  // Fields
  //////////////////////////////////////////////////////////////////////////////

  function ParseProof(s: Bytes): Parsed<Proof> {
    var (p, t) :- Take(192, s);
    Done(p, t)
  }

  function RawProof(p: Proof): Bytes { p }

  function Compact(s: Spend): SpendV5 {
    SpendV5(s.cv, s.nullifier, s.rk)
  }

  function CompactOutput(o: Output): OutputV5 {
    OutputV5(o.cv, o.cmu, o.epk, o.enc, o.out)
  }

  function ProofOf(s: Spend): Proof { s.proof }

  function SigOf(s: Spend): Bytes64 { s.sig }

  function OutputProofOf(o: Output): Proof { o.proof }

  function EncSpendV5(s: SpendV5): Bytes {
    s.cv + s.nullifier + s.rk
  }

  function EncOutputV5(o: OutputV5): Bytes {
    o.cv + o.cmu + o.epk + o.enc + o.out
  }

  function ParseSpendV5(k: Curves, s: Bytes): Parsed<SpendV5> {
    var (cv, s) :- ParseElement(k.cv, InvalidInput, s);
    var (nullifier, s) :- Take(32, s);
    var (rk, s) :- ParseElement(k.rk, InvalidData, s);
    Done(SpendV5(cv, nullifier, rk), s)
  }

  function ParseOutputV5(k: Curves, s: Bytes): Parsed<OutputV5> {
    var (cv, s) :- ParseElement(k.cv, InvalidInput, s);
    var (cmu, s) :- ParseElement(k.cmu, InvalidInput, s);
    var (epk, s) :- Take(32, s);
    var (enc, s) :- Take(580, s);
    var (out, s) :- Take(80, s);
    Done(OutputV5(cv, cmu, epk, enc, out), s)
  }

  function SpendV5Parser(k: Curves): Bytes -> Parsed<SpendV5> {
    s => ParseSpendV5(k, s)
  }

  function OutputV5Parser(k: Curves): Bytes -> Parsed<OutputV5> {
    s => ParseOutputV5(k, s)
  }

  predicate GoodSpendV5(k: Curves, s: SpendV5) {
    k.cv(s.cv) && k.rk(s.rk)
  }

  predicate GoodOutputV5(k: Curves, o: OutputV5) {
    k.cv(o.cv) && k.cmu(o.cmu)
  }

  predicate GoodSpend(k: Curves, s: Spend) {
    GoodSpendV5(k, Compact(s)) && k.base(s.anchor)
  }

  predicate GoodOutput(k: Curves, o: Output) {
    GoodOutputV5(k, CompactOutput(o))
  }

  /** Bundles with elements that decode, in lists that a reader accepts; never both lists empty. */
  predicate GoodSapling(k: Curves, b: SaplingBundle) {
    && |b.spends| <= MAX_COMPACT_SIZE && |b.outputs| <= MAX_COMPACT_SIZE
    && (forall s :: s in b.spends ==> GoodSpend(k, s))
    && (forall o :: o in b.outputs ==> GoodOutput(k, o))
    && !(b.spends == [] && b.outputs == [])
  }

  /** All spends are proved against one tree state, as the v5 layout requires. */
  predicate SharedAnchor(spends: seq<Spend>) {
    forall i :: 0 <= i < |spends| ==> spends[i].anchor == spends[0].anchor
  }

  lemma SpendV5RoundTrip(k: Curves, s: SpendV5, t: Bytes)
    requires GoodSpendV5(k, s)
    ensures ParseSpendV5(k, EncSpendV5(s) + t) == Done(s, t)
  {
    Regroup3(s.cv, s.nullifier, s.rk, t);
  }

  lemma OutputV5RoundTrip(k: Curves, o: OutputV5, t: Bytes)
    requires GoodOutputV5(k, o)
    ensures ParseOutputV5(k, EncOutputV5(o) + t) == Done(o, t)
  {
    Regroup5(o.cv, o.cmu, o.epk, o.enc, o.out, t);
  }

  lemma SpendV5Reencodes(k: Curves, s: Bytes)
    requires ParseSpendV5(k, s).Done?
    ensures GoodSpendV5(k, ParseSpendV5(k, s).value)
    ensures s == EncSpendV5(ParseSpendV5(k, s).value) + ParseSpendV5(k, s).rest
  {
    var d, t := ParseSpendV5(k, s).value, ParseSpendV5(k, s).rest;
    Regroup3(d.cv, d.nullifier, d.rk, t);
  }

  lemma OutputV5Reencodes(k: Curves, s: Bytes)
    requires ParseOutputV5(k, s).Done?
    ensures GoodOutputV5(k, ParseOutputV5(k, s).value)
    ensures s == EncOutputV5(ParseOutputV5(k, s).value) + ParseOutputV5(k, s).rest
  {
    var d, t := ParseOutputV5(k, s).value, ParseOutputV5(k, s).rest;
    Regroup5(d.cv, d.cmu, d.epk, d.enc, d.out, t);
  }

  //////////////////////////////////////////////////////////////////////////////
  // The v5 layout
  //////////////////////////////////////////////////////////////////////////////

  /** What v5 moves out of the descriptions, kind by kind. */
  datatype Witnesses = Witnesses(
    spendProofs: seq<Proof>, spendSigs: seq<Bytes64>, outputProofs: seq<Proof>, bindingSig: Bytes64)

  function WitnessesOf(b: SaplingBundle): Witnesses {
    Witnesses(Map(b.spends, ProofOf), Map(b.spends, SigOf), Map(b.outputs, OutputProofOf), b.bindingSig)
  }

  /** All spend proofs, then all spend signatures, then all output proofs, then the binding signature. */
  function EncWitnesses(w: Witnesses): Bytes {
    Concat(w.spendProofs, RawProof) + Concat(w.spendSigs, RawSig) + Concat(w.outputProofs, RawProof) + w.bindingSig
  }

  /** The value balance, and the one anchor when there is a spend to share it. */
  function EncBalanceAndAnchor(balance: ZatBalance, anchor: Option<Bytes32>): Bytes {
    EncBalance(balance) + (if anchor.Some? then anchor.value else [])
  }

  /** The anchor that is written: the first spend's. */
  function AnchorOf(b: SaplingBundle): Option<Bytes32> {
    if b.spends == [] then None else Some(b.spends[0].anchor)
  }

  function EncSaplingV5(b: Option<SaplingBundle>): Bytes {
    match b
    case None => EncCompactSize(0) + EncCompactSize(0)
    case Some(b) =>
      EncVector(Map(b.spends, Compact), EncSpendV5)
      + EncVector(Map(b.outputs, CompactOutput), EncOutputV5)
      + (if b.spends == [] && b.outputs == [] then []
         else EncBalanceAndAnchor(b.valueBalance, AnchorOf(b)) + EncWitnesses(WitnessesOf(b)))
  }

  function ParseWitnesses(n: nat, m: nat, s: Bytes): (p: Parsed<Witnesses>)
    ensures p.Done? ==> |p.value.spendProofs| == |p.value.spendSigs| == n && |p.value.outputProofs| == m
  {
    var (spendProofs, s) :- Many([], n, s, ParseProof);
    var (spendSigs, s) :- Many([], n, s, ParseSig64);
    var (outputProofs, s) :- Many([], m, s, ParseProof);
    var (bindingSig, s) :- Take(64, s);
    Done(Witnesses(spendProofs, spendSigs, outputProofs, bindingSig), s)
  }

  function ParseBalanceAndAnchor(k: Curves, hasAnchor: bool, s: Bytes): (p: Parsed<(ZatBalance, Option<Bytes32>)>)
    ensures p.Done? ==> p.value.1.Some? == hasAnchor
  {
    var (balance, s) :- ParseBalance(s);
    if !hasAnchor then Done((balance, None), s) else
      var (anchor, s) :- ParseElement(k.base, InvalidInput, s);
      Done((balance, Some(anchor)), s)
  }

  /** Puts each proof and signature back with its own description. */
  function Join(spends: seq<SpendV5>, outputs: seq<OutputV5>, balance: ZatBalance, anchor: Option<Bytes32>,
                w: Witnesses): (b: SaplingBundle)
    requires |spends| == |w.spendProofs| == |w.spendSigs| && |outputs| == |w.outputProofs|
    requires anchor.Some? == (spends != [])
    ensures |b.spends| == |spends| && |b.outputs| == |outputs|
  {
    SaplingBundle(
      seq(|spends|, i requires 0 <= i < |spends| =>
        Spend(spends[i].cv, anchor.value, spends[i].nullifier, spends[i].rk, w.spendProofs[i], w.spendSigs[i])),
      seq(|outputs|, i requires 0 <= i < |outputs| =>
        var d := outputs[i];
        Output(d.cv, d.cmu, d.epk, d.enc, d.out, w.outputProofs[i])),
      balance, w.bindingSig)
  }

  function ParseSaplingV5(k: Curves, s: Bytes): Parsed<Option<SaplingBundle>> {
    var (spends, s) :- ParseVector(s, SpendV5Parser(k));
    var (outputs, s) :- ParseVector(s, OutputV5Parser(k));
    if spends == [] && outputs == [] then Done(None, s) else
      var (va, s) :- ParseBalanceAndAnchor(k, spends != [], s);
      var (w, s) :- ParseWitnesses(|spends|, |outputs|, s);
      Done(Some(Join(spends, outputs, va.0, va.1, w)), s)
  }

  predicate GoodSaplingV5(k: Curves, b: Option<SaplingBundle>) {
    b.Some? ==> GoodSapling(k, b.value) && SharedAnchor(b.value.spends)
  }

  lemma WitnessesRoundTrip(w: Witnesses, t: Bytes)
    requires |w.spendProofs| == |w.spendSigs|
    ensures ParseWitnesses(|w.spendProofs|, |w.outputProofs|, EncWitnesses(w) + t) == Done(w, t)
  {
    hide Many;
    var proofs, sigs, outputProofs :=
      Concat(w.spendProofs, RawProof), Concat(w.spendSigs, RawSig), Concat(w.outputProofs, RawProof);
    Regroup4(proofs, sigs, outputProofs, w.bindingSig, t);
    assert forall p: Proof :: RoundTrips(p, RawProof, ParseProof);
    assert forall p: Bytes64 :: RoundTrips(p, RawSig, ParseSig64);
    ManyRoundTrip(w.spendProofs, sigs + (outputProofs + (w.bindingSig + t)), RawProof, ParseProof);
    ManyRoundTrip(w.spendSigs, outputProofs + (w.bindingSig + t), RawSig, ParseSig64);
    ManyRoundTrip(w.outputProofs, w.bindingSig + t, RawProof, ParseProof);
  }

  lemma WitnessesReencode(n: nat, m: nat, s: Bytes)
    requires ParseWitnesses(n, m, s).Done?
    ensures s == EncWitnesses(ParseWitnesses(n, m, s).value) + ParseWitnesses(n, m, s).rest
  {
    hide Many;
    var w, t := ParseWitnesses(n, m, s).value, ParseWitnesses(n, m, s).rest;
    assert forall u :: Reencodes(u, RawProof, ParseProof);
    assert forall u :: Reencodes(u, RawSig, ParseSig64);
    var s1 := Many([], n, s, ParseProof).rest;
    var s2 := Many([], n, s1, ParseSig64).rest;
    ManyReencodes([], n, s, RawProof, ParseProof);
    ManyReencodes([], n, s1, RawSig, ParseSig64);
    ManyReencodes([], m, s2, RawProof, ParseProof);
    Regroup4(Concat(w.spendProofs, RawProof), Concat(w.spendSigs, RawSig), Concat(w.outputProofs, RawProof),
             w.bindingSig, t);
  }

  predicate GoodSpendsV5(k: Curves, spends: seq<SpendV5>) {
    |spends| <= MAX_COMPACT_SIZE && forall s :: s in spends ==> GoodSpendV5(k, s)
  }

  predicate GoodOutputsV5(k: Curves, outputs: seq<OutputV5>) {
    |outputs| <= MAX_COMPACT_SIZE && forall o :: o in outputs ==> GoodOutputV5(k, o)
  }

  lemma SpendsV5RoundTrip(k: Curves, spends: seq<SpendV5>, t: Bytes)
    requires GoodSpendsV5(k, spends)
    ensures ParseVector(EncVector(spends, EncSpendV5) + t, SpendV5Parser(k)) == Done(spends, t)
  {
    hide ParseSpendV5, EncSpendV5;
    forall s | s in spends ensures RoundTrips(s, EncSpendV5, SpendV5Parser(k)) {
      forall u ensures SpendV5Parser(k)(EncSpendV5(s) + u) == Done(s, u) {
        SpendV5RoundTrip(k, s, u);
      }
    }
    VectorRoundTrip(spends, t, EncSpendV5, SpendV5Parser(k));
  }

  lemma OutputsV5RoundTrip(k: Curves, outputs: seq<OutputV5>, t: Bytes)
    requires GoodOutputsV5(k, outputs)
    ensures ParseVector(EncVector(outputs, EncOutputV5) + t, OutputV5Parser(k)) == Done(outputs, t)
  {
    hide ParseOutputV5, EncOutputV5;
    forall o | o in outputs ensures RoundTrips(o, EncOutputV5, OutputV5Parser(k)) {
      forall u ensures OutputV5Parser(k)(EncOutputV5(o) + u) == Done(o, u) {
        OutputV5RoundTrip(k, o, u);
      }
    }
    VectorRoundTrip(outputs, t, EncOutputV5, OutputV5Parser(k));
  }

  lemma SpendsV5Reencode(k: Curves, s: Bytes)
    requires ParseVector(s, SpendV5Parser(k)).Done?
    ensures GoodSpendsV5(k, ParseVector(s, SpendV5Parser(k)).value)
    ensures s == EncVector(ParseVector(s, SpendV5Parser(k)).value, EncSpendV5) + ParseVector(s, SpendV5Parser(k)).rest
  {
    hide ParseSpendV5, EncSpendV5, GoodSpendV5;
    var dec, good := SpendV5Parser(k), (d: SpendV5) => GoodSpendV5(k, d);
    forall u | dec(u).Done?
      ensures good(dec(u).value) && u == EncSpendV5(dec(u).value) + dec(u).rest
    {
      SpendV5Reencodes(k, u);
    }
    assert forall u :: Reencodes(u, EncSpendV5, dec);
    VectorReencodes(s, EncSpendV5, dec);
    ManyAll([], ParseCompactSize(s).value, ParseCompactSize(s).rest, dec, good);
    assert forall d :: d in ParseVector(s, dec).value ==> good(d);
  }

  lemma OutputsV5Reencode(k: Curves, s: Bytes)
    requires ParseVector(s, OutputV5Parser(k)).Done?
    ensures GoodOutputsV5(k, ParseVector(s, OutputV5Parser(k)).value)
    ensures s ==
            EncVector(ParseVector(s, OutputV5Parser(k)).value, EncOutputV5) + ParseVector(s, OutputV5Parser(k)).rest
  {
    hide ParseOutputV5, EncOutputV5, GoodOutputV5;
    var dec, good := OutputV5Parser(k), (d: OutputV5) => GoodOutputV5(k, d);
    forall u | dec(u).Done?
      ensures good(dec(u).value) && u == EncOutputV5(dec(u).value) + dec(u).rest
    {
      OutputV5Reencodes(k, u);
    }
    assert forall u :: Reencodes(u, EncOutputV5, dec);
    VectorReencodes(s, EncOutputV5, dec);
    ManyAll([], ParseCompactSize(s).value, ParseCompactSize(s).rest, dec, good);
    assert forall d :: d in ParseVector(s, dec).value ==> good(d);
  }

  lemma BalanceAndAnchorRoundTrip(k: Curves, balance: ZatBalance, anchor: Option<Bytes32>, t: Bytes)
    requires anchor.Some? ==> k.base(anchor.value)
    ensures ParseBalanceAndAnchor(k, anchor.Some?, EncBalanceAndAnchor(balance, anchor) + t) ==
            Done((balance, anchor), t)
  {
    hide ParseBalance, EncBalance;
    var a := if anchor.Some? then anchor.value else [];
    Regroup2(EncBalance(balance), a, t);
    BalanceRoundTrip(balance, a + t);
    if anchor.None? {
      assert a + t == t;
    }
  }

  lemma BalanceAndAnchorReencodes(k: Curves, hasAnchor: bool, s: Bytes)
    requires ParseBalanceAndAnchor(k, hasAnchor, s).Done?
    ensures var p := ParseBalanceAndAnchor(k, hasAnchor, s);
      && (hasAnchor ==> k.base(p.value.1.value))
      && s == EncBalanceAndAnchor(p.value.0, p.value.1) + p.rest
  {
    hide ParseBalance, EncBalance;
    var p := ParseBalanceAndAnchor(k, hasAnchor, s);
    Regroup2(EncBalance(p.value.0), if hasAnchor then p.value.1.value else [], p.rest);
  }

  lemma JoinUndoesSplit(b: SaplingBundle)
    requires SharedAnchor(b.spends)
    ensures b == Join(Map(b.spends, Compact), Map(b.outputs, CompactOutput), b.valueBalance, AnchorOf(b),
                      WitnessesOf(b))
  {
  }

  lemma SplitUndoesJoin(spends: seq<SpendV5>, outputs: seq<OutputV5>, balance: ZatBalance, anchor: Option<Bytes32>,
                        w: Witnesses)
    requires |spends| == |w.spendProofs| == |w.spendSigs| && |outputs| == |w.outputProofs|
    requires anchor.Some? == (spends != [])
    ensures var b := Join(spends, outputs, balance, anchor, w);
      && Map(b.spends, Compact) == spends && Map(b.outputs, CompactOutput) == outputs
      && b.valueBalance == balance && AnchorOf(b) == anchor && WitnessesOf(b) == w && SharedAnchor(b.spends)
  {
    var b := Join(spends, outputs, balance, anchor, w);
    assert Map(b.spends, Compact) == spends && Map(b.outputs, CompactOutput) == outputs;
    assert Map(b.spends, ProofOf) == w.spendProofs && Map(b.spends, SigOf) == w.spendSigs;
    assert Map(b.outputs, OutputProofOf) == w.outputProofs;
  }

  /** A bundle is good exactly when what it is split into is. */
  lemma GoodParts(k: Curves, b: SaplingBundle)
    requires SharedAnchor(b.spends) && !(b.spends == [] && b.outputs == [])
    ensures GoodSapling(k, b) <==>
            && GoodSpendsV5(k, Map(b.spends, Compact)) && GoodOutputsV5(k, Map(b.outputs, CompactOutput))
            && (b.spends != [] ==> k.base(AnchorOf(b).value))
  {
    var ds, os := Map(b.spends, Compact), Map(b.outputs, CompactOutput);
    if GoodSapling(k, b) {
      assert forall i :: 0 <= i < |ds| ==> ds[i] == Compact(b.spends[i]) && b.spends[i] in b.spends;
      assert forall i :: 0 <= i < |os| ==> os[i] == CompactOutput(b.outputs[i]) && b.outputs[i] in b.outputs;
    } else {
      assert forall i :: 0 <= i < |ds| ==> ds[i] == Compact(b.spends[i]) && ds[i] in ds;
      assert forall i :: 0 <= i < |os| ==> os[i] == CompactOutput(b.outputs[i]) && os[i] in os;
    }
  }

  /** The transposed layout round-trips every bundle whose spends share one anchor. */
  lemma SaplingV5RoundTrip(k: Curves, b: Option<SaplingBundle>, t: Bytes)
    requires GoodSaplingV5(k, b)
    ensures ParseSaplingV5(k, EncSaplingV5(b) + t) == Done(b, t)
  {
    hide ParseVector, EncVector, ParseBalanceAndAnchor, ParseWitnesses, EncBalanceAndAnchor, EncWitnesses;
    hide Join, EncCompactSize, GoodSpendsV5, GoodOutputsV5, GoodSapling;
    match b
    case None =>
      EmptyVector(EncSpendV5);
      EmptyVector(EncOutputV5);
      Regroup2(EncCompactSize(0), EncCompactSize(0), t);
      NothingIsGood(k);
      SpendsV5RoundTrip(k, [], EncCompactSize(0) + t);
      OutputsV5RoundTrip(k, [], t);
    case Some(b) =>
      GoodIsNotEmpty(k, b);
      GoodParts(k, b);
      var ds, os := Map(b.spends, Compact), Map(b.outputs, CompactOutput);
      var fixed, w := EncBalanceAndAnchor(b.valueBalance, AnchorOf(b)), WitnessesOf(b);
      Regroup3(EncVector(ds, EncSpendV5), EncVector(os, EncOutputV5), fixed + EncWitnesses(w), t);
      Regroup2(fixed, EncWitnesses(w), t);
      SpendsV5RoundTrip(k, ds, EncVector(os, EncOutputV5) + (fixed + EncWitnesses(w) + t));
      OutputsV5RoundTrip(k, os, fixed + EncWitnesses(w) + t);
      BalanceAndAnchorRoundTrip(k, b.valueBalance, AnchorOf(b), EncWitnesses(w) + t);
      WitnessesRoundTrip(w, t);
      JoinUndoesSplit(b);
  }

  lemma NothingIsGood(k: Curves)
    ensures GoodSpendsV5(k, []) && GoodOutputsV5(k, [])
  {
  }

  lemma GoodIsNotEmpty(k: Curves, b: SaplingBundle)
    requires GoodSapling(k, b)
    ensures !(b.spends == [] && b.outputs == [])
  {
  }

  /** Whatever the transposed reader accepts shares an anchor and is written back byte for byte. */
  lemma SaplingV5Reencodes(k: Curves, s: Bytes)
    requires ParseSaplingV5(k, s).Done?
    ensures GoodSaplingV5(k, ParseSaplingV5(k, s).value)
    ensures s == EncSaplingV5(ParseSaplingV5(k, s).value) + ParseSaplingV5(k, s).rest
  {
    hide ParseVector, EncVector, ParseBalanceAndAnchor, ParseWitnesses, EncBalanceAndAnchor, EncWitnesses;
    hide Join, EncCompactSize, GoodSpendsV5, GoodOutputsV5, GoodSapling;
    var ds, s1 := ParseVector(s, SpendV5Parser(k)).value, ParseVector(s, SpendV5Parser(k)).rest;
    var os, s2 := ParseVector(s1, OutputV5Parser(k)).value, ParseVector(s1, OutputV5Parser(k)).rest;
    SpendsV5Reencode(k, s);
    OutputsV5Reencode(k, s1);
    if ds == [] && os == [] {
      EmptyVector(EncSpendV5);
      EmptyVector(EncOutputV5);
      Regroup2(EncCompactSize(0), EncCompactSize(0), s2);
    } else {
      var p := ParseBalanceAndAnchor(k, ds != [], s2);
      var w, t := ParseWitnesses(|ds|, |os|, p.rest).value, ParseWitnesses(|ds|, |os|, p.rest).rest;
      BalanceAndAnchorReencodes(k, ds != [], s2);
      WitnessesReencode(|ds|, |os|, p.rest);
      SplitUndoesJoin(ds, os, p.value.0, p.value.1, w);
      var b := Join(ds, os, p.value.0, p.value.1, w);
      GoodParts(k, b);
      var fixed := EncBalanceAndAnchor(p.value.0, p.value.1);
      Regroup3(EncVector(ds, EncSpendV5), EncVector(os, EncOutputV5), fixed + EncWitnesses(w), t);
      Regroup2(fixed, EncWitnesses(w), t);
    }
  }

  //////////////////////////////////////////////////////////////////////////////
  // The v4 layout
  //////////////////////////////////////////////////////////////////////////////

  function EncSpendV4(s: Spend): Bytes {
    s.cv + s.anchor + s.nullifier + s.rk + s.proof + s.sig
  }

  function EncOutputV4(o: Output): Bytes {
    o.cv + o.cmu + o.epk + o.enc + o.out + o.proof
  }

  function ParseSpendV4(k: Curves, s: Bytes): Parsed<Spend> {
    var (cv, s) :- ParseElement(k.cv, InvalidInput, s);
    var (anchor, s) :- ParseElement(k.base, InvalidInput, s);
    var (nullifier, s) :- Take(32, s);
    var (rk, s) :- ParseElement(k.rk, InvalidData, s);
    var (proof, s) :- Take(192, s);
    var (sig, s) :- Take(64, s);
    Done(Spend(cv, anchor, nullifier, rk, proof, sig), s)
  }

  function ParseOutputV4(k: Curves, s: Bytes): Parsed<Output> {
    var (cv, s) :- ParseElement(k.cv, InvalidInput, s);
    var (cmu, s) :- ParseElement(k.cmu, InvalidInput, s);
    var (epk, s) :- Take(32, s);
    var (enc, s) :- Take(580, s);
    var (out, s) :- Take(80, s);
    var (proof, s) :- Take(192, s);
    Done(Output(cv, cmu, epk, enc, out, proof), s)
  }

  function SpendV4Parser(k: Curves): Bytes -> Parsed<Spend> {
    s => ParseSpendV4(k, s)
  }

  function OutputV4Parser(k: Curves): Bytes -> Parsed<Output> {
    s => ParseOutputV4(k, s)
  }

  /** The components that stand together in a v4 transaction; the binding signature comes later. */
  datatype ComponentsV4 = ComponentsV4(balance: ZatBalance, spends: seq<Spend>, outputs: seq<Output>)

  function EncComponentsV4(c: ComponentsV4): Bytes {
    EncBalance(c.balance) + EncVector(c.spends, EncSpendV4) + EncVector(c.outputs, EncOutputV4)
  }

  function ParseComponentsV4(k: Curves, s: Bytes): Parsed<ComponentsV4> {
    var (balance, s) :- ParseBalance(s);
    var (spends, s) :- ParseVector(s, SpendV4Parser(k));
    var (outputs, s) :- ParseVector(s, OutputV4Parser(k));
    Done(ComponentsV4(balance, spends, outputs), s)
  }

  predicate GoodComponentsV4(k: Curves, c: ComponentsV4) {
    && |c.spends| <= MAX_COMPACT_SIZE && |c.outputs| <= MAX_COMPACT_SIZE
    && (forall s :: s in c.spends ==> GoodSpend(k, s))
    && (forall o :: o in c.outputs ==> GoodOutput(k, o))
  }

  lemma SpendV4RoundTrip(k: Curves, s: Spend, t: Bytes)
    requires GoodSpend(k, s)
    ensures ParseSpendV4(k, EncSpendV4(s) + t) == Done(s, t)
  {
    Regroup6(s.cv, s.anchor, s.nullifier, s.rk, s.proof, s.sig, t);
  }

  lemma OutputV4RoundTrip(k: Curves, o: Output, t: Bytes)
    requires GoodOutput(k, o)
    ensures ParseOutputV4(k, EncOutputV4(o) + t) == Done(o, t)
  {
    Regroup6(o.cv, o.cmu, o.epk, o.enc, o.out, o.proof, t);
  }

  lemma SpendV4Reencodes(k: Curves, s: Bytes)
    requires ParseSpendV4(k, s).Done?
    ensures GoodSpend(k, ParseSpendV4(k, s).value)
    ensures s == EncSpendV4(ParseSpendV4(k, s).value) + ParseSpendV4(k, s).rest
  {
    var d, t := ParseSpendV4(k, s).value, ParseSpendV4(k, s).rest;
    Regroup6(d.cv, d.anchor, d.nullifier, d.rk, d.proof, d.sig, t);
  }

  lemma OutputV4Reencodes(k: Curves, s: Bytes)
    requires ParseOutputV4(k, s).Done?
    ensures GoodOutput(k, ParseOutputV4(k, s).value)
    ensures s == EncOutputV4(ParseOutputV4(k, s).value) + ParseOutputV4(k, s).rest
  {
    var d, t := ParseOutputV4(k, s).value, ParseOutputV4(k, s).rest;
    Regroup6(d.cv, d.cmu, d.epk, d.enc, d.out, d.proof, t);
  }

  lemma SpendsV4RoundTrip(k: Curves, spends: seq<Spend>, t: Bytes)
    requires |spends| <= MAX_COMPACT_SIZE && forall s :: s in spends ==> GoodSpend(k, s)
    ensures ParseVector(EncVector(spends, EncSpendV4) + t, SpendV4Parser(k)) == Done(spends, t)
  {
    hide ParseSpendV4, EncSpendV4, GoodSpend;
    forall s | s in spends ensures RoundTrips(s, EncSpendV4, SpendV4Parser(k)) {
      forall u ensures SpendV4Parser(k)(EncSpendV4(s) + u) == Done(s, u) {
        SpendV4RoundTrip(k, s, u);
      }
    }
    VectorRoundTrip(spends, t, EncSpendV4, SpendV4Parser(k));
  }

  lemma OutputsV4RoundTrip(k: Curves, outputs: seq<Output>, t: Bytes)
    requires |outputs| <= MAX_COMPACT_SIZE && forall o :: o in outputs ==> GoodOutput(k, o)
    ensures ParseVector(EncVector(outputs, EncOutputV4) + t, OutputV4Parser(k)) == Done(outputs, t)
  {
    hide ParseOutputV4, EncOutputV4, GoodOutput;
    forall o | o in outputs ensures RoundTrips(o, EncOutputV4, OutputV4Parser(k)) {
      forall u ensures OutputV4Parser(k)(EncOutputV4(o) + u) == Done(o, u) {
        OutputV4RoundTrip(k, o, u);
      }
    }
    VectorRoundTrip(outputs, t, EncOutputV4, OutputV4Parser(k));
  }

  lemma SpendsV4Reencode(k: Curves, s: Bytes)
    requires ParseVector(s, SpendV4Parser(k)).Done?
    ensures var spends := ParseVector(s, SpendV4Parser(k)).value;
      |spends| <= MAX_COMPACT_SIZE && forall x :: x in spends ==> GoodSpend(k, x)
    ensures s == EncVector(ParseVector(s, SpendV4Parser(k)).value, EncSpendV4) + ParseVector(s, SpendV4Parser(k)).rest
  {
    hide ParseSpendV4, EncSpendV4, GoodSpend;
    var dec, good := SpendV4Parser(k), (d: Spend) => GoodSpend(k, d);
    forall u | dec(u).Done?
      ensures good(dec(u).value) && u == EncSpendV4(dec(u).value) + dec(u).rest
    {
      SpendV4Reencodes(k, u);
    }
    assert forall u :: Reencodes(u, EncSpendV4, dec);
    VectorReencodes(s, EncSpendV4, dec);
    ManyAll([], ParseCompactSize(s).value, ParseCompactSize(s).rest, dec, good);
    assert forall d :: d in ParseVector(s, dec).value ==> good(d);
  }

  lemma OutputsV4Reencode(k: Curves, s: Bytes)
    requires ParseVector(s, OutputV4Parser(k)).Done?
    ensures var outputs := ParseVector(s, OutputV4Parser(k)).value;
      |outputs| <= MAX_COMPACT_SIZE && forall x :: x in outputs ==> GoodOutput(k, x)
    ensures s ==
            EncVector(ParseVector(s, OutputV4Parser(k)).value, EncOutputV4) + ParseVector(s, OutputV4Parser(k)).rest
  {
    hide ParseOutputV4, EncOutputV4, GoodOutput;
    var dec, good := OutputV4Parser(k), (d: Output) => GoodOutput(k, d);
    forall u | dec(u).Done?
      ensures good(dec(u).value) && u == EncOutputV4(dec(u).value) + dec(u).rest
    {
      OutputV4Reencodes(k, u);
    }
    assert forall u :: Reencodes(u, EncOutputV4, dec);
    VectorReencodes(s, EncOutputV4, dec);
    ManyAll([], ParseCompactSize(s).value, ParseCompactSize(s).rest, dec, good);
    assert forall d :: d in ParseVector(s, dec).value ==> good(d);
  }

  lemma ComponentsV4RoundTrip(k: Curves, c: ComponentsV4, t: Bytes)
    requires GoodComponentsV4(k, c)
    ensures ParseComponentsV4(k, EncComponentsV4(c) + t) == Done(c, t)
  {
    hide ParseVector, EncVector, ParseBalance, EncBalance;
    var spends, outputs := EncVector(c.spends, EncSpendV4), EncVector(c.outputs, EncOutputV4);
    Regroup3(EncBalance(c.balance), spends, outputs, t);
    BalanceRoundTrip(c.balance, spends + (outputs + t));
    SpendsV4RoundTrip(k, c.spends, outputs + t);
    OutputsV4RoundTrip(k, c.outputs, t);
  }

  lemma ComponentsV4Reencode(k: Curves, s: Bytes)
    requires ParseComponentsV4(k, s).Done?
    ensures GoodComponentsV4(k, ParseComponentsV4(k, s).value)
    ensures s == EncComponentsV4(ParseComponentsV4(k, s).value) + ParseComponentsV4(k, s).rest
  {
    hide ParseVector, EncVector, ParseBalance, EncBalance;
    var c, t := ParseComponentsV4(k, s).value, ParseComponentsV4(k, s).rest;
    var s1 := ParseBalance(s).rest;
    SpendsV4Reencode(k, s1);
    OutputsV4Reencode(k, ParseVector(s1, SpendV4Parser(k)).rest);
    Regroup3(EncBalance(c.balance), EncVector(c.spends, EncSpendV4), EncVector(c.outputs, EncOutputV4), t);
  }

  //////////////////////////////////////////////////////////////////////////////
  // Reading
  //////////////////////////////////////////////////////////////////////////////

  method ReadSpendV5(r: Reader, k: Curves) returns (res: Result<SpendV5>)
    modifies r
    ensures Follows(ParseSpendV5(k, old(r.rest)), res, r.rest)
  {
    var cv :- ReadElement(r, k.cv, InvalidInput);
    var nullifier :- r.ReadExact(32);
    var rk :- ReadElement(r, k.rk, InvalidData);
    res := Success(SpendV5(cv, nullifier, rk));
  }

  method ReadOutputV5(r: Reader, k: Curves) returns (res: Result<OutputV5>)
    modifies r
    ensures Follows(ParseOutputV5(k, old(r.rest)), res, r.rest)
  {
    var cv :- ReadElement(r, k.cv, InvalidInput);
    var cmu :- ReadElement(r, k.cmu, InvalidInput);
    var epk :- r.ReadExact(32);
    var enc :- r.ReadExact(580);
    var out :- r.ReadExact(80);
    res := Success(OutputV5(cv, cmu, epk, enc, out));
  }

  method ReadSpendsV5(r: Reader, k: Curves) returns (res: Result<seq<SpendV5>>)
    modifies r
    ensures Follows(ParseVector(old(r.rest), SpendV5Parser(k)), res, r.rest)
  {
    hide ParseSpendV5, ParseCompactSize;
    var count :- r.ReadCompactSize();
    ghost var start, dec := r.rest, SpendV5Parser(k);
    var spends := [];
    for i := 0 to count
      invariant Many([], count, start, dec) == Many(spends, count - i, r.rest, dec)
    {
      var x :- ReadSpendV5(r, k);
      spends := spends + [x];
    }
    res := Success(spends);
  }

  method ReadOutputsV5(r: Reader, k: Curves) returns (res: Result<seq<OutputV5>>)
    modifies r
    ensures Follows(ParseVector(old(r.rest), OutputV5Parser(k)), res, r.rest)
  {
    hide ParseOutputV5, ParseCompactSize;
    var count :- r.ReadCompactSize();
    ghost var start, dec := r.rest, OutputV5Parser(k);
    var outputs := [];
    for i := 0 to count
      invariant Many([], count, start, dec) == Many(outputs, count - i, r.rest, dec)
    {
      var x :- ReadOutputV5(r, k);
      outputs := outputs + [x];
    }
    res := Success(outputs);
  }

  method ReadProofs(r: Reader, count: nat) returns (res: Result<seq<Proof>>)
    modifies r
    ensures Follows(Many([], count, old(r.rest), ParseProof), res, r.rest)
  {
    var proofs: seq<Proof> := [];
    for i := 0 to count
      invariant Many([], count, old(r.rest), ParseProof) == Many(proofs, count - i, r.rest, ParseProof)
    {
      var x :- r.ReadExact(192);
      proofs := proofs + [x];
    }
    res := Success(proofs);
  }

  method ReadSaplingV5(r: Reader, k: Curves) returns (res: Result<Option<SaplingBundle>>)
    modifies r
    ensures Follows(ParseSaplingV5(k, old(r.rest)), res, r.rest)
  {
    hide ParseVector, Many, ParseBalance, Join;
    var ds :- ReadSpendsV5(r, k);
    var os :- ReadOutputsV5(r, k);
    if ds == [] && os == [] {
      return Success(None);
    }
    var balance :- ReadBalance(r);
    var anchor := None;
    if ds != [] {
      var a :- ReadElement(r, k.base, InvalidInput);
      anchor := Some(a);
    }
    var spendProofs :- ReadProofs(r, |ds|);
    var spendSigs :- ReadSig64s(r, |ds|);
    var outputProofs :- ReadProofs(r, |os|);
    var bindingSig :- r.ReadExact(64);
    var w := Witnesses(spendProofs, spendSigs, outputProofs, bindingSig);
    res := Success(Some(Join(ds, os, balance, anchor, w)));
  }

  method ReadSpendV4(r: Reader, k: Curves) returns (res: Result<Spend>)
    modifies r
    ensures Follows(ParseSpendV4(k, old(r.rest)), res, r.rest)
  {
    var cv :- ReadElement(r, k.cv, InvalidInput);
    var anchor :- ReadElement(r, k.base, InvalidInput);
    var nullifier :- r.ReadExact(32);
    var rk :- ReadElement(r, k.rk, InvalidData);
    var proof :- r.ReadExact(192);
    var sig :- r.ReadExact(64);
    res := Success(Spend(cv, anchor, nullifier, rk, proof, sig));
  }

  method ReadOutputV4(r: Reader, k: Curves) returns (res: Result<Output>)
    modifies r
    ensures Follows(ParseOutputV4(k, old(r.rest)), res, r.rest)
  {
    var cv :- ReadElement(r, k.cv, InvalidInput);
    var cmu :- ReadElement(r, k.cmu, InvalidInput);
    var epk :- r.ReadExact(32);
    var enc :- r.ReadExact(580);
    var out :- r.ReadExact(80);
    var proof :- r.ReadExact(192);
    res := Success(Output(cv, cmu, epk, enc, out, proof));
  }

  method ReadSpendsV4(r: Reader, k: Curves) returns (res: Result<seq<Spend>>)
    modifies r
    ensures Follows(ParseVector(old(r.rest), SpendV4Parser(k)), res, r.rest)
  {
    hide ParseCompactSize, ParseSpendV4;
    var count :- r.ReadCompactSize();
    ghost var start, dec := r.rest, SpendV4Parser(k);
    var spends := [];
    for i := 0 to count
      invariant Many([], count, start, dec) == Many(spends, count - i, r.rest, dec)
    {
      var x :- ReadSpendV4(r, k);
      spends := spends + [x];
    }
    res := Success(spends);
  }

  method ReadOutputsV4(r: Reader, k: Curves) returns (res: Result<seq<Output>>)
    modifies r
    ensures Follows(ParseVector(old(r.rest), OutputV4Parser(k)), res, r.rest)
  {
    hide ParseCompactSize, ParseOutputV4;
    var count :- r.ReadCompactSize();
    ghost var start, dec := r.rest, OutputV4Parser(k);
    var outputs := [];
    for i := 0 to count
      invariant Many([], count, start, dec) == Many(outputs, count - i, r.rest, dec)
    {
      var x :- ReadOutputV4(r, k);
      outputs := outputs + [x];
    }
    res := Success(outputs);
  }

  method ReadComponentsV4(r: Reader, k: Curves) returns (res: Result<ComponentsV4>)
    modifies r
    ensures Follows(ParseComponentsV4(k, old(r.rest)), res, r.rest)
  {
    hide ParseVector, ParseBalance;
    var balance :- ReadBalance(r);
    var spends :- ReadSpendsV4(r, k);
    var outputs :- ReadOutputsV4(r, k);
    res := Success(ComponentsV4(balance, spends, outputs));
  }

  //////////////////////////////////////////////////////////////////////////////
  // Writing
  //////////////////////////////////////////////////////////////////////////////

  method WriteDescriptionsV5(w: Writer, b: SaplingBundle)
    modifies w
    ensures w.buf == old(w.buf) + EncVector(Map(b.spends, Compact), EncSpendV5)
                     + EncVector(Map(b.outputs, CompactOutput), EncOutputV5)
  {
    hide EncCompactSize;
    ghost var ds, os := Map(b.spends, Compact), Map(b.outputs, CompactOutput);
    w.WriteCompactSize(|b.spends|);
    ghost var start := w.buf;
    for i := 0 to |b.spends|
      invariant w.buf == start + Concat(ds[..i], EncSpendV5)
    {
      var s := b.spends[i];
      ghost var before := w.buf;
      w.WriteAll(s.cv);
      w.WriteAll(s.nullifier);
      w.WriteAll(s.rk);
      Regroup3(before, s.cv, s.nullifier, s.rk);
      Regroup2(s.cv, s.nullifier, s.rk);
      Extend(w.buf, start, ds, i, EncSpendV5);
    }
    assert ds[..|ds|] == ds;
    Regroup2(old(w.buf), EncCompactSize(|ds|), Concat(ds, EncSpendV5));
    ghost var middle := w.buf;
    WriteOutputsV5(w, b.outputs);
  }

  method WriteOutputsV5(w: Writer, outputs: seq<Output>)
    modifies w
    ensures w.buf == old(w.buf) + EncVector(Map(outputs, CompactOutput), EncOutputV5)
  {
    hide EncCompactSize;
    ghost var os := Map(outputs, CompactOutput);
    w.WriteCompactSize(|outputs|);
    ghost var start := w.buf;
    for i := 0 to |outputs|
      invariant w.buf == start + Concat(os[..i], EncOutputV5)
    {
      var o := outputs[i];
      ghost var before := w.buf;
      w.WriteAll(o.cv);
      w.WriteAll(o.cmu);
      w.WriteAll(o.epk);
      w.WriteAll(o.enc);
      w.WriteAll(o.out);
      Regroup5(before, o.cv, o.cmu, o.epk, o.enc, o.out);
      Regroup4(o.cv, o.cmu, o.epk, o.enc, o.out);
      Extend(w.buf, start, os, i, EncOutputV5);
    }
    assert os[..|os|] == os;
    Regroup2(old(w.buf), EncCompactSize(|os|), Concat(os, EncOutputV5));
  }

  method WriteSpendProofs(w: Writer, spends: seq<Spend>)
    modifies w
    ensures w.buf == old(w.buf) + Concat(Map(spends, ProofOf), RawProof)
  {
    ghost var ps := Map(spends, ProofOf);
    for i := 0 to |spends|
      invariant w.buf == old(w.buf) + Concat(ps[..i], RawProof)
    {
      w.WriteAll(spends[i].proof);
      Extend(w.buf, old(w.buf), ps, i, RawProof);
    }
    assert ps[..|ps|] == ps;
  }

  method WriteSpendSigs(w: Writer, spends: seq<Spend>)
    modifies w
    ensures w.buf == old(w.buf) + Concat(Map(spends, SigOf), RawSig)
  {
    ghost var ps := Map(spends, SigOf);
    for i := 0 to |spends|
      invariant w.buf == old(w.buf) + Concat(ps[..i], RawSig)
    {
      w.WriteAll(spends[i].sig);
      Extend(w.buf, old(w.buf), ps, i, RawSig);
    }
    assert ps[..|ps|] == ps;
  }

  method WriteOutputProofs(w: Writer, outputs: seq<Output>)
    modifies w
    ensures w.buf == old(w.buf) + Concat(Map(outputs, OutputProofOf), RawProof)
  {
    ghost var ps := Map(outputs, OutputProofOf);
    for i := 0 to |outputs|
      invariant w.buf == old(w.buf) + Concat(ps[..i], RawProof)
    {
      w.WriteAll(outputs[i].proof);
      Extend(w.buf, old(w.buf), ps, i, RawProof);
    }
    assert ps[..|ps|] == ps;
  }

  predicate NoDescriptions(b: SaplingBundle) {
    b.spends == [] && b.outputs == []
  }

  method WriteBalanceAndAnchor(w: Writer, b: SaplingBundle)
    modifies w
    ensures w.buf == old(w.buf) + if NoDescriptions(b) then [] else EncBalanceAndAnchor(b.valueBalance, AnchorOf(b))
  {
    hide EncBalance;
    if !(b.spends == [] && b.outputs == []) {
      w.WriteAll(EncBalance(b.valueBalance));
    }
    if b.spends != [] {
      w.WriteAll(b.spends[0].anchor);
      Regroup2(old(w.buf), EncBalance(b.valueBalance), b.spends[0].anchor);
    }
  }

  method WriteWitnesses(w: Writer, b: SaplingBundle)
    modifies w
    ensures w.buf == old(w.buf) + if NoDescriptions(b) then [] else EncWitnesses(WitnessesOf(b))
  {
    WriteSpendProofs(w, b.spends);
    WriteSpendSigs(w, b.spends);
    WriteOutputProofs(w, b.outputs);
    if !(b.spends == [] && b.outputs == []) {
      w.WriteAll(b.bindingSig);
      ghost var ps, ss, qs := Concat(Map(b.spends, ProofOf), RawProof), Concat(Map(b.spends, SigOf), RawSig),
                              Concat(Map(b.outputs, OutputProofOf), RawProof);
      Regroup4(old(w.buf), ps, ss, qs, b.bindingSig);
      Regroup3(ps, ss, qs, b.bindingSig);
    }
  }

  method WriteSaplingV5(w: Writer, b: Option<SaplingBundle>)
    modifies w
    ensures w.buf == old(w.buf) + EncSaplingV5(b)
  {
    hide EncCompactSize, EncVector, EncWitnesses, EncBalanceAndAnchor, Map;
    match b {
      case None =>
        w.WriteCompactSize(0);
        w.WriteCompactSize(0);
        Regroup2(old(w.buf), EncCompactSize(0), EncCompactSize(0));
      case Some(b) =>
        WriteDescriptionsV5(w, b);
        WriteBalanceAndAnchor(w, b);
        WriteWitnesses(w, b);
        ghost var ds := EncVector(Map(b.spends, Compact), EncSpendV5);
        ghost var os := EncVector(Map(b.outputs, CompactOutput), EncOutputV5);
        ghost var fixed := EncBalanceAndAnchor(b.valueBalance, AnchorOf(b));
        ghost var witnesses := EncWitnesses(WitnessesOf(b));
        if NoDescriptions(b) {
          Regroup3(old(w.buf), ds, os, []);
          Regroup2(ds, os, []);
        } else {
          Regroup4(old(w.buf), ds, os, fixed, witnesses);
          Regroup3(ds, os, fixed, witnesses);
          Regroup2(ds, os, fixed + witnesses);
        }
    }
  }

  method WriteSpendsV4(w: Writer, spends: seq<Spend>)
    modifies w
    ensures w.buf == old(w.buf) + EncVector(spends, EncSpendV4)
  {
    hide EncCompactSize;
    w.WriteCompactSize(|spends|);
    ghost var start := w.buf;
    for i := 0 to |spends|
      invariant w.buf == start + Concat(spends[..i], EncSpendV4)
    {
      var s := spends[i];
      ghost var before := w.buf;
      w.WriteAll(s.cv);
      w.WriteAll(s.anchor);
      w.WriteAll(s.nullifier);
      w.WriteAll(s.rk);
      w.WriteAll(s.proof);
      w.WriteAll(s.sig);
      Regroup6(before, s.cv, s.anchor, s.nullifier, s.rk, s.proof, s.sig);
      Regroup5(s.cv, s.anchor, s.nullifier, s.rk, s.proof, s.sig);
      Extend(w.buf, start, spends, i, EncSpendV4);
    }
    assert spends[..|spends|] == spends;
    Regroup2(old(w.buf), EncCompactSize(|spends|), Concat(spends, EncSpendV4));
  }

  method WriteOutputsV4(w: Writer, outputs: seq<Output>)
    modifies w
    ensures w.buf == old(w.buf) + EncVector(outputs, EncOutputV4)
  {
    hide EncCompactSize;
    w.WriteCompactSize(|outputs|);
    ghost var start := w.buf;
    for i := 0 to |outputs|
      invariant w.buf == start + Concat(outputs[..i], EncOutputV4)
    {
      var o := outputs[i];
      ghost var before := w.buf;
      w.WriteAll(o.cv);
      w.WriteAll(o.cmu);
      w.WriteAll(o.epk);
      w.WriteAll(o.enc);
      w.WriteAll(o.out);
      w.WriteAll(o.proof);
      Regroup6(before, o.cv, o.cmu, o.epk, o.enc, o.out, o.proof);
      Regroup5(o.cv, o.cmu, o.epk, o.enc, o.out, o.proof);
      Extend(w.buf, start, outputs, i, EncOutputV4);
    }
    assert outputs[..|outputs|] == outputs;
    Regroup2(old(w.buf), EncCompactSize(|outputs|), Concat(outputs, EncOutputV4));
  }

  method WriteComponentsV4(w: Writer, c: ComponentsV4)
    modifies w
    ensures w.buf == old(w.buf) + EncComponentsV4(c)
  {
    hide EncBalance, EncVector;
    w.WriteAll(EncBalance(c.balance));
    WriteSpendsV4(w, c.spends);
    WriteOutputsV4(w, c.outputs);
    Regroup3(old(w.buf), EncBalance(c.balance), EncVector(c.spends, EncSpendV4), EncVector(c.outputs, EncOutputV4));
    Regroup2(EncBalance(c.balance), EncVector(c.spends, EncSpendV4), EncVector(c.outputs, EncOutputV4));
  }
}
