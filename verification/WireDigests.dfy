/**
 * The digest trees of ZIP 244 and ZIP 229 drawn once more, as trees over pieces cut out of the wire
 * encodings, and the agreement of every identifier, commitment and signature hash with them.
 */
module WireDigests {
  import opened ByteStrings
  import opened Io
  import opened Sapling
  import opened Schedules
  import opened Sighash
  import opened Orchard
  import opened Staking
  import opened Transactions
  import opened Transparent
  import opened TxBinding
  import opened TxDigests
  import opened TxVersions
  import opened Values

  /** Bytes, or the personalized hash of what its parts give one after another. */
  datatype Tree = Leaf(bytes: Bytes) | Node(personal: Bytes, parts: seq<Tree>)

  function Root(h: Blake2b, t: Tree): Bytes {
    match t
    case Leaf(bytes) => bytes
    case Node(personal, parts) => h(personal, Roots(h, parts))
  }

  function Roots(h: Blake2b, ts: seq<Tree>): Bytes {
    if ts == [] then [] else Root(h, ts[0]) + Roots(h, ts[1..])
  }

  //////////////////////////////////////////////////////////////////////////////
  // Cuts
  //////////////////////////////////////////////////////////////////////////////

  /** An input on the wire: outpoint, script, sequence. */
  function CutPrevout(i: TxIn): Bytes {
    EncTxIn(i)[..36]
  }

  function CutScriptSig(i: TxIn): Bytes {
    EncTxIn(i)[36..|EncTxIn(i)| - 4]
  }

  function CutSequence(i: TxIn): Bytes {
    EncTxIn(i)[|EncTxIn(i)| - 4..]
  }

  /** The 96 bytes that v5 writes first, and the v4 form, whose bytes 32 to 64 are the anchor. */
  function CutNullifier(s: Spend): Bytes {
    EncSpendV5(Compact(s))[32..64]
  }

  function CutAnchored(s: Spend): Bytes {
    EncSpendV4(s)[..64] + EncSpendV4(s)[96..128]
  }

  function CutUnanchored(s: Spend): Bytes {
    EncSpendV5(Compact(s))[..32] + EncSpendV5(Compact(s))[64..]
  }

  /** The 756 bytes of an output: 52 of the ciphertext's 580 bytes are compact, the next 512 are the memo. */
  function CutCompact(o: Output): Bytes {
    EncOutputV5(CompactOutput(o))[32..148]
  }

  function CutMemo(o: Output): Bytes {
    EncOutputV5(CompactOutput(o))[148..660]
  }

  function CutNoncompact(o: Output): Bytes {
    EncOutputV5(CompactOutput(o))[..32] + EncOutputV5(CompactOutput(o))[660..]
  }

  function Tail(s: Bytes, n: nat): Bytes {
    if n <= |s| then s[|s| - n..] else s
  }

  //////////////////////////////////////////////////////////////////////////////
  // Trees
  //////////////////////////////////////////////////////////////////////////////

  function Hashed(personal: string, bytes: Bytes): Tree {
    Node(Ascii(personal), [Leaf(bytes)])
  }

  /** T.1: the version and the header fragment as written. */
  function HeaderTree(d: TxData): Tree {
    Hashed("ZTxIdHeadersHash", EncVersion(d.version) + EncFragment(d))
  }

  /** T.2 */
  function TransparentTree(b: Option<TransparentBundle>): Tree {
    Node(Ascii("ZTxIdTranspaHash"), if b.None? then [] else
      [Hashed("ZTxIdPrevoutHash", Concat(b.value.vin, CutPrevout)),
       Hashed("ZTxIdSequencHash", Concat(b.value.vin, CutSequence)),
       Hashed("ZTxIdOutputsHash", Concat(b.value.vout, EncTxOut))])
  }

  /** T.3a */
  function SpendsTree(v: TxVersion, spends: seq<Spend>): Tree {
    Node(Ascii("ZTxIdSSpendsHash"), if spends == [] then [] else
      [Hashed("ZTxIdSSpendCHash", Concat(spends, CutNullifier)),
       if v.V6? then Hashed("ZTxIdSSpendNH_v6", Concat(spends, CutUnanchored))
       else Hashed("ZTxIdSSpendNHash", Concat(spends, CutAnchored))])
  }

  /** T.3b */
  function OutputsTree(outputs: seq<Output>): Tree {
    Node(Ascii("ZTxIdSOutputHash"), if outputs == [] then [] else
      [Hashed("ZTxIdSOutC__Hash", Concat(outputs, CutCompact)), Hashed("ZTxIdSOutM__Hash", Concat(outputs, CutMemo)),
       Hashed("ZTxIdSOutN__Hash", Concat(outputs, CutNoncompact))])
  }

  /** T.3 */
  function SaplingTree(v: TxVersion, b: Option<SaplingBundle>): Tree {
    Node(Ascii("ZTxIdSaplingHash"), if b.None? || NoDescriptions(b.value) then [] else
      [SpendsTree(v, b.value.spends), OutputsTree(b.value.outputs), Leaf(EncBalance(b.value.valueBalance))])
  }

  function BranchPersonal(prefix: string, b: BranchId): Bytes {
    Ascii(prefix) + LE(BranchToU32(b), 4)
  }

  function TxidTree(c: Commitments, d: TxData): Tree {
    Node(BranchPersonal("ZcashTxHash_", d.branch),
         [HeaderTree(d), TransparentTree(d.transparent), SaplingTree(d.version, d.sapling),
          Leaf(c.txid(OrchardPool, if d.version.V6? then OrchardTxV6 else OrchardTxV5, d.orchard))]
         + (if d.version.V6? then [Leaf(c.txid(IronwoodPool, OrchardTxV6, d.ironwood))]
            else if d.staking.Some? then [Hashed("ZTxCrosslinkHash", EncStaking(d.staking))]
            else []))
  }

  /** The proofs and signatures are the end of the v5 form; in v6 the anchor follows them. */
  function SaplingAuthTree(v: TxVersion, b: Option<SaplingBundle>): Tree {
    Node(Ascii(if v.V6? then "ZTxAuthSapliH_v6" else "ZTxAuthSapliHash"), if b.None? then [] else
      [Leaf(Tail(EncSaplingV5(b), 256 * |b.value.spends| + 192 * |b.value.outputs| + 64))]
      + (if v.V6? && b.value.spends != [] then [Leaf(EncSpendV4(b.value.spends[0])[32..64])] else []))
  }

  function AuthTree(c: Commitments, d: TxData): Tree {
    Node(BranchPersonal("ZTxAuthHash_", d.branch),
         [Hashed("ZTxAuthTransHash", Concat(Vin(d.transparent), CutScriptSig)), SaplingAuthTree(d.version, d.sapling),
          Leaf(c.auth(OrchardPool, if d.version.V6? then OrchardTxV6 else OrchardTxV5, d.orchard)),
          Hashed("ZTxCrosslinkHash", if d.staking.None? then [] else EncStaking(d.staking))]
         + (if d.version.V6? then [Leaf(c.auth(IronwoodPool, OrchardTxV6, d.ironwood))] else []))
  }

  /** An amount and a script in the form they have inside an output. */
  function CutAmount(z: Zatoshis): Bytes {
    EncTxOut(TxOut(z, []))[..8]
  }

  function CutScript(script: Bytes): Bytes {
    EncTxOut(TxOut(0, script))[8..]
  }

  /** S.2g: the signed input with the whole coin it spends, as that output was written. */
  function SignedInputBytes(b: TransparentBundle, s: Signable): Bytes
    requires s.Input? ==> s.index < |b.vin|
  {
    if s.Shielded? then [] else
      CutPrevout(b.vin[s.index]) + EncTxOut(TxOut(s.value, s.script)) + CutSequence(b.vin[s.index])
  }

  /** S.2: hash type, inputs, amounts, scripts, sequences, outputs, signed input. */
  function SignedTree(b: TransparentBundle, coins: Coins, s: Signable): Tree
    requires s.Input? ==> s.index < |b.vin|
  {
    var hashType := if s.Shielded? then 1 else s.hashType;
    var vin := if hashType < 0x80 then b.vin else [];
    var spent := if hashType < 0x80 then coins else Coins([], []);
    var vout :=
      if hashType % 32 == 2 then [] else if hashType % 32 != 3 then b.vout
      else if s.index < |b.vout| then [b.vout[s.index]] else [];
    Node(Ascii("ZTxIdTranspaHash"),
         [Leaf([hashType]), Hashed("ZTxIdPrevoutHash", Concat(vin, CutPrevout)),
          Hashed("ZTxTrAmountsHash", Concat(spent.amounts, CutAmount)),
          Hashed("ZTxTrScriptsHash", Concat(spent.scripts, CutScript)),
          Hashed("ZTxIdSequencHash", Concat(vin, CutSequence)), Hashed("ZTxIdOutputsHash", Concat(vout, EncTxOut)),
          Hashed("Zcash___TxInHash", SignedInputBytes(b, s))])
  }

  /** No transparent inputs, or only the one that spends the null outpoint. */
  predicate WithoutInputs(b: Option<TransparentBundle>) {
    Vin(b) == [] || (|Vin(b)| == 1 && Vin(b)[0].prevout == OutPoint(Zeros(32), 0xffff_ffff))
  }

  /** The identifier's tree with the transparent part replaced; v5 does not know the staking action. */
  function SighashTree(c: Commitments, d: TxData, coins: Coins, s: Signable): Tree
    requires Signs(d.transparent, s)
  {
    var t := TxidTree(c, if d.version.V5? then d.(staking := None) else d);
    if WithoutInputs(d.transparent) then t
    else Node(t.personal, t.parts[1 := SignedTree(d.transparent.value, coins, s)])
  }

  //////////////////////////////////////////////////////////////////////////////
  // Agreement
  //////////////////////////////////////////////////////////////////////////////

  lemma RootsCons(h: Blake2b, t: Tree, ts: seq<Tree>)
    ensures Roots(h, [t] + ts) == Root(h, t) + Roots(h, ts)
  {
    assert ([t] + ts)[1..] == ts;
  }

  lemma Roots1(h: Blake2b, a: Tree)
    ensures Roots(h, [a]) == Root(h, a)
  {
    RootsCons(h, a, []);
    assert [a] + [] == [a] && Root(h, a) + [] == Root(h, a);
  }

  lemma Roots2(h: Blake2b, a: Tree, b: Tree)
    ensures Roots(h, [a, b]) == Root(h, a) + Root(h, b)
  {
    Roots1(h, b);
    RootsCons(h, a, [b]);
    assert [a] + [b] == [a, b];
  }

  lemma Roots3(h: Blake2b, a: Tree, b: Tree, c: Tree)
    ensures Roots(h, [a, b, c]) == Root(h, a) + Root(h, b) + Root(h, c)
  {
    Roots2(h, b, c);
    RootsCons(h, a, [b, c]);
    assert [a] + [b, c] == [a, b, c];
    Regroup2(Root(h, a), Root(h, b), Root(h, c));
  }

  lemma Roots4(h: Blake2b, a: Tree, b: Tree, c: Tree, d: Tree, rest: seq<Tree>)
    ensures Roots(h, [a, b, c, d] + rest) == Root(h, a) + Root(h, b) + Root(h, c) + Root(h, d) + Roots(h, rest)
  {
    RootsCons(h, d, rest);
    RootsCons(h, c, [d] + rest);
    RootsCons(h, b, [c] + ([d] + rest));
    RootsCons(h, a, [b] + ([c] + ([d] + rest)));
    assert [a] + ([b] + ([c] + ([d] + rest))) == [a, b, c, d] + rest;
    Regroup4(Root(h, a), Root(h, b), Root(h, c), Root(h, d), Roots(h, rest));
  }

  lemma RootHashed(h: Blake2b, personal: string, bytes: Bytes)
    ensures Root(h, Hashed(personal, bytes)) == Digest(h, Call(Ascii(personal), bytes))
  {
    Roots1(h, Leaf(bytes));
  }

  lemma InputCuts(i: TxIn)
    ensures CutPrevout(i) == EncPrevout(i) && CutScriptSig(i) == EncScriptSig(i) && CutSequence(i) == EncSequence(i)
  {
    hide LE, EncBlob, EncOutPoint;
    var a, b, c := EncOutPoint(i.prevout), EncBlob(i.scriptSig), LE(i.sequence, 4);
    assert EncTxIn(i) == a + b + c;
    assert (a + b + c)[..36] == a && (a + b + c)[36..36 + |b|] == b && (a + b + c)[36 + |b|..] == c;
  }

  lemma SpendCuts(s: Spend)
    ensures CutNullifier(s) == EncNullifier(s)
    ensures CutAnchored(s) == EncAnchored(s) && CutUnanchored(s) == EncUnanchored(s)
  {
    var v4, v5 := EncSpendV4(s), EncSpendV5(Compact(s));
    assert v5[..32] == s.cv && v5[32..64] == s.nullifier && v5[64..] == s.rk;
    assert v4[..64] == s.cv + s.anchor && v4[96..128] == s.rk;
  }

  lemma OutputCuts(o: Output)
    ensures CutCompact(o) == EncOutputCompact(o) && CutMemo(o) == EncOutputMemo(o)
    ensures CutNoncompact(o) == EncOutputNoncompact(o)
  {
    var w := EncOutputV5(CompactOutput(o));
    assert w[32..148] == o.cmu + o.epk + o.enc[..52];
    assert w[148..660] == o.enc[52..564];
    assert w[..32] == o.cv && w[660..] == o.enc[564..] + o.out;
  }

  /** Version and fragment of a transaction from v5 on are its first 20 bytes, and those are what is hashed. */
  lemma HeaderIsWirePrefix(d: TxData)
    requires !Legacy(d.version) && TxBytes(d).Success?
    ensures |TxBytes(d).value| >= 20 && HeaderCall(d).input == TxBytes(d).value[..20]
  {
    hide LE, EncTransparent, EncSaplingV5, EncOrchard, EncExtra;
    HeaderIsWritten(d);
    var transparent, sapling, orchard, extra :=
      EncTransparent(d.transparent), EncSaplingV5(d.sapling), EncOrchard(d.orchard), EncExtra(d);
    Regroup5(EncFragment(d), transparent, sapling, orchard, extra, []);
    assert EncModern(d) + [] == EncModern(d);
    Regroup2(EncVersion(d.version), EncFragment(d), transparent + (sapling + (orchard + (extra + []))));
  }

  lemma HeaderIsWritten(d: TxData)
    requires !Legacy(d.version)
    ensures HeaderCall(d).input == EncVersion(d.version) + EncFragment(d)
    ensures |EncVersion(d.version) + EncFragment(d)| == 20
  {
    hide LE;
    var a, b, c := LE(HeaderWord(d.version), 4), LE(VersionGroupId(d.version), 4), LE(BranchToU32(d.branch), 4);
    Regroup3(a + b, c, LE(d.lockTime, 4), LE(d.expiry, 4));
    Regroup2(c, LE(d.lockTime, 4), LE(d.expiry, 4));
  }

  lemma Hashed2(h: Blake2b, p: Bytes, a: string, x: Bytes, b: string, y: Bytes)
    ensures Root(h, Node(p, [Hashed(a, x), Hashed(b, y)])) ==
            h(p, Digest(h, Call(Ascii(a), x)) + Digest(h, Call(Ascii(b), y)))
  {
    Roots2(h, Hashed(a, x), Hashed(b, y));
    RootHashed(h, a, x);
    RootHashed(h, b, y);
    hide Hashed, Roots;
  }

  lemma Hashed3(h: Blake2b, p: Bytes, a: string, x: Bytes, b: string, y: Bytes, c: string, z: Bytes)
    ensures Root(h, Node(p, [Hashed(a, x), Hashed(b, y), Hashed(c, z)])) ==
            h(p, Digest(h, Call(Ascii(a), x)) + Digest(h, Call(Ascii(b), y)) + Digest(h, Call(Ascii(c), z)))
  {
    Roots3(h, Hashed(a, x), Hashed(b, y), Hashed(c, z));
    RootHashed(h, a, x);
    RootHashed(h, b, y);
    RootHashed(h, c, z);
    hide Hashed, Roots;
  }

  lemma TransparentAgrees(h: Blake2b, b: Option<TransparentBundle>)
    ensures Root(h, TransparentTree(b)) ==
            Digest(h, TransparentCall(if b.None? then None else Some(TransparentParts(h, b.value))))
  {
    hide EncTxOut, EncTxIn, Hashed;
    if b.Some? {
      InputListsAgree(b.value.vin);
      Hashed3(h, Ascii("ZTxIdTranspaHash"), "ZTxIdPrevoutHash", Concat(b.value.vin, CutPrevout),
              "ZTxIdSequencHash", Concat(b.value.vin, CutSequence), "ZTxIdOutputsHash", Concat(b.value.vout, EncTxOut));
    }
  }

  lemma InputListsAgree(vin: seq<TxIn>)
    ensures Concat(vin, CutPrevout) == Concat(vin, EncPrevout)
    ensures Concat(vin, CutSequence) == Concat(vin, EncSequence)
    ensures Concat(vin, CutScriptSig) == Concat(vin, EncScriptSig)
  {
    forall i | 0 <= i < |vin|
      ensures CutPrevout(vin[i]) == EncPrevout(vin[i]) && CutSequence(vin[i]) == EncSequence(vin[i])
      ensures CutScriptSig(vin[i]) == EncScriptSig(vin[i])
    {
      InputCuts(vin[i]);
    }
    hide CutPrevout, CutSequence, CutScriptSig, EncPrevout, EncSequence, EncScriptSig;
    ConcatAlike(vin, CutPrevout, vin, EncPrevout);
    ConcatAlike(vin, CutSequence, vin, EncSequence);
    ConcatAlike(vin, CutScriptSig, vin, EncScriptSig);
  }

  lemma SpendsAgree(h: Blake2b, v: TxVersion, spends: seq<Spend>)
    ensures Root(h, SpendsTree(v, spends)) == Digest(h, SpendsCall(h, v, spends))
  {
    forall i | 0 <= i < |spends|
      ensures CutNullifier(spends[i]) == EncNullifier(spends[i])
      ensures CutAnchored(spends[i]) == EncAnchored(spends[i]) && CutUnanchored(spends[i]) == EncUnanchored(spends[i])
    {
      SpendCuts(spends[i]);
    }
    hide CutNullifier, CutAnchored, CutUnanchored, EncNullifier, EncAnchored, EncUnanchored, Hashed;
    ConcatAlike(spends, CutNullifier, spends, EncNullifier);
    ConcatAlike(spends, CutAnchored, spends, EncAnchored);
    ConcatAlike(spends, CutUnanchored, spends, EncUnanchored);
    var noncompact := Concat(spends, if v.V6? then CutUnanchored else CutAnchored);
    Hashed2(h, Ascii("ZTxIdSSpendsHash"), "ZTxIdSSpendCHash", Concat(spends, CutNullifier),
            if v.V6? then "ZTxIdSSpendNH_v6" else "ZTxIdSSpendNHash", noncompact);
  }

  lemma OutputsAgree(h: Blake2b, outputs: seq<Output>)
    ensures Root(h, OutputsTree(outputs)) == Digest(h, SaplingOutputsCall(h, outputs))
  {
    forall i | 0 <= i < |outputs|
      ensures CutCompact(outputs[i]) == EncOutputCompact(outputs[i]) && CutMemo(outputs[i]) == EncOutputMemo(outputs[i])
      ensures CutNoncompact(outputs[i]) == EncOutputNoncompact(outputs[i])
    {
      OutputCuts(outputs[i]);
    }
    hide CutCompact, CutMemo, CutNoncompact, EncOutputCompact, EncOutputMemo, EncOutputNoncompact, Hashed;
    ConcatAlike(outputs, CutCompact, outputs, EncOutputCompact);
    ConcatAlike(outputs, CutMemo, outputs, EncOutputMemo);
    ConcatAlike(outputs, CutNoncompact, outputs, EncOutputNoncompact);
    Hashed3(h, Ascii("ZTxIdSOutputHash"), "ZTxIdSOutC__Hash", Concat(outputs, CutCompact),
            "ZTxIdSOutM__Hash", Concat(outputs, CutMemo), "ZTxIdSOutN__Hash", Concat(outputs, CutNoncompact));
  }

  lemma SaplingAgrees(h: Blake2b, v: TxVersion, b: Option<SaplingBundle>)
    ensures Root(h, SaplingTree(v, b)) == Digest(h, SaplingCall(h, v, b))
  {
    if b.Some? && !NoDescriptions(b.value) {
      var x, y := SpendsTree(v, b.value.spends), OutputsTree(b.value.outputs);
      var z := Leaf(EncBalance(b.value.valueBalance));
      SpendsAgree(h, v, b.value.spends);
      OutputsAgree(h, b.value.outputs);
      Roots3(h, x, y, z);
      hide SpendsTree, OutputsTree, SpendsCall, SaplingOutputsCall, Roots, EncBalance;
    }
  }

  /** The four parts that every root has; all but the transparent one are the same for signing. */
  lemma RootAgrees(h: Blake2b, c: Commitments, d: TxData, p: TxidParts, transparent: Tree, digest: Bytes32)
    requires !Legacy(d.version) && p == PartsOf(h, c, d) && Root(h, transparent) == digest
    ensures Root(h, Node(TxidTree(c, d).personal, TxidTree(c, d).parts[1 := transparent])) ==
            Digest(h, RootCall(h, c, d.version, d.branch, digest, p))
  {
    assert SaplingCall(h, d.version, None) == Call(SAPLING, []);
    hide LE, EncVersion, EncFragment, Ascii, EncStaking, TransparentTree, SaplingCall, HeaderCall;
    var last := TxidTree(c, d).parts[4..];
    LastAgrees(h, c, d, p);
    var header, orchard := HeaderTree(d), Leaf(OrchardTxid(c, d.version, d.orchard));
    HeaderAgrees(h, d);
    SaplingAgrees(h, d.version, d.sapling);
    hide SaplingTree, HeaderTree, LastPart;
    Roots4(h, header, transparent, SaplingTree(d.version, d.sapling), orchard, last);
    assert TxidTree(c, d).parts[1 := transparent] ==
           [header, transparent, SaplingTree(d.version, d.sapling), orchard] + last;
    hide Roots;
  }

  lemma HeaderAgrees(h: Blake2b, d: TxData)
    requires !Legacy(d.version)
    ensures Root(h, HeaderTree(d)) == Digest(h, HeaderCall(d))
  {
    HeaderIsWritten(d);
    RootHashed(h, "ZTxIdHeadersHash", EncVersion(d.version) + EncFragment(d));
    hide EncVersion, EncFragment, LE, Hashed;
  }

  lemma LastAgrees(h: Blake2b, c: Commitments, d: TxData, p: TxidParts)
    requires p == PartsOf(h, c, d)
    ensures Roots(h, TxidTree(c, d).parts[4..]) == LastPart(c, d.version, p)
  {
    hide HeaderTree, TransparentTree, SaplingTree, HeaderCall, SaplingCall, EncStaking;
    var last := TxidTree(c, d).parts[4..];
    if d.version.V6? {
      var ironwood := Leaf(IronwoodTxid(c, d.ironwood));
      Roots1(h, ironwood);
      assert last == [ironwood];
    } else if d.staking.Some? {
      Roots1(h, Hashed("ZTxCrosslinkHash", EncStaking(d.staking)));
      RootHashed(h, "ZTxCrosslinkHash", EncStaking(d.staking));
      hide Hashed;
      assert last == [Hashed("ZTxCrosslinkHash", EncStaking(d.staking))];
    } else {
      assert last == [];
    }
  }

  /** Every identifier from v5 on is the root of the tree over cuts of the wire encodings. */
  lemma TxidIsTreeRoot(h: Blake2b, c: Commitments, d: TxData)
    requires !Legacy(d.version)
    ensures Txid(h, c, d) == Root(h, TxidTree(c, d))
  {
    var p := PartsOf(h, c, d);
    TransparentAgrees(h, d.transparent);
    RootAgrees(h, c, d, p, TransparentTree(d.transparent), Digest(h, TransparentCall(p.transparent)));
    hide HeaderTree, TransparentTree, SaplingTree, HeaderCall, SaplingCall, TransparentCall, TransparentParts, Root;
    hide RootCall, CrosslinkCall, LE, EncStaking;
    assert TxidTree(c, d).parts[1 := TransparentTree(d.transparent)] == TxidTree(c, d).parts;
  }

  //////////////////////////////////////////////////////////////////////////////
  // Authorizing commitments
  //////////////////////////////////////////////////////////////////////////////

  lemma TailOf(a: Bytes, b: Bytes)
    ensures Tail(a + b, |b|) == b
  {
  }

  lemma WitnessesAreTail(b: SaplingBundle)
    requires !NoDescriptions(b)
    ensures Tail(EncSaplingV5(Some(b)), 256 * |b.spends| + 192 * |b.outputs| + 64) == EncWitnesses(WitnessesOf(b))
  {
    AuthInputLength(V5, b);
    hide EncWitnesses, WitnessesOf, EncVector, EncBalanceAndAnchor;
    var witnesses := EncWitnesses(WitnessesOf(b));
    var front := EncVector(Map(b.spends, Compact), EncSpendV5) + EncVector(Map(b.outputs, CompactOutput), EncOutputV5);
    assert witnesses + [] == witnesses;
    Regroup2(front, EncBalanceAndAnchor(b.valueBalance, AnchorOf(b)), witnesses);
    TailOf(front + EncBalanceAndAnchor(b.valueBalance, AnchorOf(b)), witnesses);
  }

  lemma AnchorCut(s: Spend)
    ensures EncSpendV4(s)[32..64] == s.anchor
  {
  }

  lemma SaplingAuthParts(h: Blake2b, v: TxVersion, b: SaplingBundle)
    requires !NoDescriptions(b)
    ensures Roots(h, SaplingAuthTree(v, Some(b)).parts) == AuthSaplingCall(v, Some(b)).input
  {
    WitnessesAreTail(b);
    hide EncSaplingV5, EncWitnesses, WitnessesOf, NoDescriptions, EncSpendV4, Ascii;
    var witnesses := Leaf(EncWitnesses(WitnessesOf(b)));
    assert witnesses.bytes + [] == witnesses.bytes;
    if v.V6? && b.spends != [] {
      AnchorCut(b.spends[0]);
      Roots2(h, witnesses, Leaf(b.spends[0].anchor));
      assert SaplingAuthTree(v, Some(b)).parts == [witnesses, Leaf(b.spends[0].anchor)];
    } else {
      Roots1(h, witnesses);
      assert SaplingAuthTree(v, Some(b)).parts == [witnesses];
    }
  }

  lemma SaplingAuthAgrees(h: Blake2b, v: TxVersion, b: Option<SaplingBundle>)
    requires b.Some? ==> !NoDescriptions(b.value)
    ensures Root(h, SaplingAuthTree(v, b)) == Digest(h, AuthSaplingCall(v, b))
  {
    if b.Some? {
      SaplingAuthParts(h, v, b.value);
      hide Roots, EncSaplingV5, EncWitnesses, WitnessesOf, NoDescriptions, EncSpendV4, AuthAnchor;
    }
  }

  lemma StakingAuthAgrees(h: Blake2b, a: Option<StakingAction>)
    ensures Root(h, Hashed("ZTxCrosslinkHash", if a.None? then [] else EncStaking(a))) ==
            Digest(h, AuthCrosslinkCall(a))
  {
    RootHashed(h, "ZTxCrosslinkHash", if a.None? then [] else EncStaking(a));
    hide EncStaking;
  }

  lemma ScriptsAgree(h: Blake2b, b: Option<TransparentBundle>)
    ensures Root(h, Hashed("ZTxAuthTransHash", Concat(Vin(b), CutScriptSig))) == Digest(h, AuthScriptsCall(b))
  {
    InputListsAgree(Vin(b));
    RootHashed(h, "ZTxAuthTransHash", Concat(Vin(b), CutScriptSig));
    hide Hashed, Concat;
  }

  /** Every authorizing commitment is the root of such a tree too. */
  lemma AuthIsTreeRoot(h: Blake2b, c: Commitments, d: TxData)
    requires !Legacy(d.version) && (d.sapling.Some? ==> !NoDescriptions(d.sapling.value))
    ensures AuthCommitment(h, c, d) == Root(h, AuthTree(c, d))
  {
    hide LE, Ascii, EncStaking, NoDescriptions;
    ScriptsAgree(h, d.transparent);
    SaplingAuthAgrees(h, d.version, d.sapling);
    StakingAuthAgrees(h, d.staking);
    hide SaplingAuthTree, AuthScriptsCall, AuthSaplingCall, AuthCrosslinkCall, Concat, Hashed;
    var scripts := Hashed("ZTxAuthTransHash", Concat(Vin(d.transparent), CutScriptSig));
    var sapling, orchard := SaplingAuthTree(d.version, d.sapling), Leaf(OrchardAuth(c, d.version, d.orchard));
    var staking := Hashed("ZTxCrosslinkHash", if d.staking.None? then [] else EncStaking(d.staking));
    var last := if d.version.V6? then [Leaf(IronwoodAuth(c, d.ironwood))] else [];
    Roots4(h, scripts, sapling, orchard, staking, last);
    if d.version.V6? {
      Roots1(h, Leaf(IronwoodAuth(c, d.ironwood)));
    }
    assert AuthTree(c, d).parts == [scripts, sapling, orchard, staking] + last;
  }

  //////////////////////////////////////////////////////////////////////////////
  // Signature hashes
  //////////////////////////////////////////////////////////////////////////////

  lemma CoinsAgree(coins: Coins)
    ensures Concat(coins.amounts, CutAmount) == Concat(coins.amounts, EncAmount)
    ensures Concat(coins.scripts, CutScript) == Concat(coins.scripts, EncBlob)
  {
    forall i | 0 <= i < |coins.amounts| ensures CutAmount(coins.amounts[i]) == EncAmount(coins.amounts[i]) {
    }
    forall i | 0 <= i < |coins.scripts| ensures CutScript(coins.scripts[i]) == EncBlob(coins.scripts[i]) {
    }
    hide CutAmount, CutScript, EncAmount, EncBlob;
    ConcatAlike(coins.amounts, CutAmount, coins.amounts, EncAmount);
    ConcatAlike(coins.scripts, CutScript, coins.scripts, EncBlob);
  }

  lemma SignedInputAgrees(b: TransparentBundle, s: Signable)
    requires s.Input? ==> s.index < |b.vin|
    ensures SignedInputBytes(b, s) == TxInCall(b, s).input
  {
    if s.Input? {
      InputCuts(b.vin[s.index]);
      hide CutPrevout, CutSequence, LE, EncBlob, EncOutPoint;
      Regroup2(EncOutPoint(b.vin[s.index].prevout), LE(s.value, 8), EncBlob(s.script));
    }
  }

  lemma Roots7(h: Blake2b, a: Tree, b: Tree, c: Tree, d: Tree, e: Tree, f: Tree, g: Tree)
    ensures Roots(h, [a, b, c, d, e, f, g]) ==
            Root(h, a) + (Root(h, b) + Root(h, c) + Root(h, d) + Root(h, e) + (Root(h, f) + Root(h, g)))
  {
    Roots2(h, f, g);
    Roots4(h, b, c, d, e, [f, g]);
    RootsCons(h, a, [b, c, d, e] + [f, g]);
    assert [a] + ([b, c, d, e] + [f, g]) == [a, b, c, d, e, f, g];
  }

  lemma SignedAgrees(h: Blake2b, b: TransparentBundle, coins: Coins, s: Signable)
    requires s.Shielded? || s.index < |b.vin|
    requires !NothingToSign(Some(b))
    ensures Root(h, SignedTree(b, coins, s)) == Digest(h, TransparentSigCall(h, Some(b), coins, s))
  {
    var vin, spent, vout := SignedInputs(b, s), SignedCoins(coins, s), SignedOutputs(b, s);
    hide SignedInputs, SignedCoins, SignedOutputs, IsCoinbase;
    InputListsAgree(vin);
    CoinsAgree(spent);
    SignedInputAgrees(b, s);
    HashTypeByte(s);
    SelectedLists(b, coins, s);
    hide SignedInputBytes, TxInCall, Concat, CutPrevout, CutSequence, CutAmount, CutScript, LE;
    var kind := Leaf([HashTypeOf(s)]);
    var x1 := Hashed("ZTxIdPrevoutHash", Concat(vin, CutPrevout));
    var x2 := Hashed("ZTxTrAmountsHash", Concat(spent.amounts, CutAmount));
    var x3 := Hashed("ZTxTrScriptsHash", Concat(spent.scripts, CutScript));
    var x4 := Hashed("ZTxIdSequencHash", Concat(vin, CutSequence));
    var x5 := Hashed("ZTxIdOutputsHash", Concat(vout, EncTxOut));
    var x6 := Hashed("Zcash___TxInHash", SignedInputBytes(b, s));
    Roots7(h, kind, x1, x2, x3, x4, x5, x6);
    RootHashed(h, "ZTxIdPrevoutHash", Concat(vin, CutPrevout));
    RootHashed(h, "ZTxTrAmountsHash", Concat(spent.amounts, CutAmount));
    RootHashed(h, "ZTxTrScriptsHash", Concat(spent.scripts, CutScript));
    RootHashed(h, "ZTxIdSequencHash", Concat(vin, CutSequence));
    RootHashed(h, "ZTxIdOutputsHash", Concat(vout, EncTxOut));
    RootHashed(h, "Zcash___TxInHash", SignedInputBytes(b, s));
    assert TxInCall(b, s).personal == Ascii("Zcash___TxInHash") by {
      TxInPersonal(b, s);
    }
    hide Roots;
  }

  lemma TxInPersonal(b: TransparentBundle, s: Signable)
    requires s.Shielded? || s.index < |b.vin|
    ensures TxInCall(b, s).personal == Ascii("Zcash___TxInHash")
  {
  }

  lemma HashTypeByte(s: Signable)
    ensures LE(HashTypeOf(s), 1) == [HashTypeOf(s)]
    ensures HashTypeOf(s) == if s.Shielded? then 1 else s.hashType
  {
    assert LE(HashTypeOf(s) / 256, 0) == [];
  }

  /** The selections by flag and mode are the selections by numbers. */
  lemma SelectedLists(b: TransparentBundle, coins: Coins, s: Signable)
    ensures var t := HashTypeOf(s);
      && SignedInputs(b, s) == (if t < 0x80 then b.vin else [])
      && SignedCoins(coins, s) == (if t < 0x80 then coins else Coins([], []))
      && SignedOutputs(b, s) ==
         if t % 32 == 2 then [] else if t % 32 != 3 then b.vout
         else if s.index < |b.vout| then [b.vout[s.index]] else []
  {
  }

  lemma WithoutInputsExactly(b: Option<TransparentBundle>)
    ensures WithoutInputs(b) <==> NothingToSign(b)
  {
  }

  lemma SigPartsDropStaking(h: Blake2b, c: Commitments, d: TxData)
    ensures SigParts(h, c, d) == PartsOf(h, c, if d.version.V5? then d.(staking := None) else d)
  {
  }

  /**
   * Every signature hash from v5 on is the root of the identifier's tree in which the transparent part,
   * when there is something transparent to sign, is replaced by what the hash type asks for.
   */
  lemma SighashIsTreeRoot(h: Blake2b, c: Commitments, d: TxData, coins: Coins, s: Signable)
    requires !Legacy(d.version) && Signs(d.transparent, s)
    ensures Sighash.Sighash(h, c, d, coins, s) == Root(h, SighashTree(c, d, coins, s))
  {
    var signed := if d.version.V5? then d.(staking := None) else d;
    var p := PartsOf(h, c, signed);
    SigPartsDropStaking(h, c, d);
    var digest := Digest(h, TransparentSigCall(h, d.transparent, coins, s));
    hide HeaderTree, SaplingTree, HeaderCall, SaplingCall, TransparentParts, Root, RootCall, CrosslinkCall, LE, PartsOf;
    hide EncStaking, SigParts;
    WithoutInputsExactly(d.transparent);
    hide WithoutInputs, IsCoinbase, Concat;
    if WithoutInputs(d.transparent) {
      TransparentAgrees(h, d.transparent);
      hide TransparentTree, TransparentCall;
      RootAgrees(h, c, signed, p, TransparentTree(d.transparent), digest);
      assert TxidTree(c, signed).parts[1 := TransparentTree(d.transparent)] == TxidTree(c, signed).parts;
    } else {
      SignedAgrees(h, d.transparent.value, coins, s);
      hide TransparentTree, TransparentSigCall, SignedTree;
      RootAgrees(h, c, signed, p, SignedTree(d.transparent.value, coins, s), digest);
    }
  }
}
