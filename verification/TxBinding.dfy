/** Identifier and authorizing commitment together commit to the whole transaction. */
module TxBinding {
  import opened ByteStrings
  import opened Io
  import opened Orchard
  import opened Sapling
  import opened Schedules
  import opened Staking
  import opened Transactions
  import opened Transparent
  import opened TxDigests
  import opened TxVersions
  import opened Values

  //////////////////////////////////////////////////////////////////////////////
  // Collisions
  //////////////////////////////////////////////////////////////////////////////

  /** A call of one set and a different call of the other with the same result. */
  ghost predicate Collision(h: Blake2b, xs: set<Call>, ys: set<Call>) {
    exists x, y :: x in xs && y in ys && x != y && Digest(h, x) == Digest(h, y)
  }

  lemma Same(h: Blake2b, xs: set<Call>, ys: set<Call>, x: Call, y: Call)
    requires !Collision(h, xs, ys) && x in xs && y in ys && Digest(h, x) == Digest(h, y)
    ensures x == y
  {
  }

  /** Different bundles, or absences of them, that the orchard crate commits to alike in both halves. */
  ghost predicate OrchardCollision(c: Commitments, pool: ValuePool, domain: OrchardTxVersion,
                                   x: Option<OrchardBundle>, y: Option<OrchardBundle>) {
    x != y && c.txid(pool, domain, x) == c.txid(pool, domain, y) && c.auth(pool, domain, x) == c.auth(pool, domain, y)
  }

  ghost function TransparentCalls(h: Blake2b, b: Option<TransparentBundle>): set<Call> {
    match b
    case None => {TransparentCall(None)}
    case Some(b) =>
      {TransparentCall(Some(TransparentParts(h, b))), PrevoutsCall(b.vin), SequencesCall(b.vin), OutputsCall(b.vout)}
  }

  ghost function SpendsCalls(h: Blake2b, v: TxVersion, spends: seq<Spend>): set<Call> {
    {SpendsCall(h, v, spends)} +
    if spends == [] then {} else {SpendsCompactCall(spends), SpendsNoncompactCall(v, spends)}
  }

  ghost function SaplingOutputsCalls(h: Blake2b, outputs: seq<Output>): set<Call> {
    {SaplingOutputsCall(h, outputs)} +
    if outputs == [] then {}
    else {OutputsCompactCall(outputs), OutputsMemosCall(outputs), OutputsNoncompactCall(outputs)}
  }

  ghost function SaplingCalls(h: Blake2b, v: TxVersion, b: Option<SaplingBundle>): set<Call> {
    {SaplingCall(h, v, b)} +
    if b.None? || (b.value.spends == [] && b.value.outputs == []) then {}
    else SpendsCalls(h, v, b.value.spends) + SaplingOutputsCalls(h, b.value.outputs)
  }

  /** Every hash computed for the identifier. */
  ghost function TxidCalls(h: Blake2b, c: Commitments, d: TxData): set<Call> {
    {TxidCall(h, c, d), HeaderCall(d)} + TransparentCalls(h, d.transparent) + SaplingCalls(h, d.version, d.sapling)
    + if d.staking.None? then {} else {CrosslinkCall(d.staking.value)}
  }

  /** Every hash computed for the authorizing commitment. */
  ghost function AuthCalls(h: Blake2b, c: Commitments, d: TxData): set<Call> {
    {AuthCall(h, c, d), AuthScriptsCall(d.transparent), AuthSaplingCall(d.version, d.sapling),
     AuthCrosslinkCall(d.staking)}
  }

  //////////////////////////////////////////////////////////////////////////////
  // Effects: what the identifier commits to
  //////////////////////////////////////////////////////////////////////////////

  predicate SameInputEffects(a: seq<TxIn>, b: seq<TxIn>) {
    |a| == |b| && forall i :: 0 <= i < |a| ==> a[i].prevout == b[i].prevout && a[i].sequence == b[i].sequence
  }

  predicate SameTransparentEffects(a: Option<TransparentBundle>, b: Option<TransparentBundle>) {
    && a.Some? == b.Some?
    && (a.Some? ==> SameInputEffects(a.value.vin, b.value.vin) && a.value.vout == b.value.vout)
  }

  predicate SameSpendEffects(v: TxVersion, a: seq<Spend>, b: seq<Spend>) {
    && |a| == |b|
    && forall i :: 0 <= i < |a| ==>
         Compact(a[i]) == Compact(b[i]) && (CommitsToAnchor(v) ==> a[i].anchor == b[i].anchor)
  }

  predicate SameOutputEffects(a: seq<Output>, b: seq<Output>) {
    |a| == |b| && forall i :: 0 <= i < |a| ==> CompactOutput(a[i]) == CompactOutput(b[i])
  }

  predicate SameSaplingEffects(v: TxVersion, a: Option<SaplingBundle>, b: Option<SaplingBundle>) {
    && a.Some? == b.Some?
    && (a.Some? ==>
          && SameSpendEffects(v, a.value.spends, b.value.spends)
          && SameOutputEffects(a.value.outputs, b.value.outputs)
          && a.value.valueBalance == b.value.valueBalance)
  }

  /** Everything but the Orchard and Ironwood bundles, without scripts, proofs and signatures. */
  predicate SameEffects(a: TxData, b: TxData) {
    && a.version == b.version && a.branch == b.branch && a.lockTime == b.lockTime && a.expiry == b.expiry
    && SameTransparentEffects(a.transparent, b.transparent)
    && SameSaplingEffects(a.version, a.sapling, b.sapling)
    && a.staking == b.staking
  }

  lemma LEInjective(n: nat, a: nat, b: nat)
    requires a < Pow256(n) && b < Pow256(n) && LE(a, n) == LE(b, n)
    ensures a == b
  {
    UnLEOfLE(a, n);
    UnLEOfLE(b, n);
  }

  lemma HeaderBinds(a: TxData, b: TxData)
    requires GoodVersion(a.version) && GoodVersion(b.version) && HeaderCall(a) == HeaderCall(b)
    ensures a.version == b.version && a.branch == b.branch && a.lockTime == b.lockTime && a.expiry == b.expiry
  {
    hide LE;
    Unjoin5(LE(HeaderWord(a.version), 4), LE(VersionGroupId(a.version), 4), LE(BranchToU32(a.branch), 4),
            LE(a.lockTime, 4), LE(a.expiry, 4),
            LE(HeaderWord(b.version), 4), LE(VersionGroupId(b.version), 4), LE(BranchToU32(b.branch), 4),
            LE(b.lockTime, 4), LE(b.expiry, 4));
    Pow256Table();
    LEInjective(4, HeaderWord(a.version), HeaderWord(b.version));
    LEInjective(4, BranchToU32(a.branch), BranchToU32(b.branch));
    LEInjective(4, a.lockTime, b.lockTime);
    LEInjective(4, a.expiry, b.expiry);
    HeaderWordsDistinct(a.version, b.version);
    BranchIdsDistinct(a.branch, b.branch);
  }

  /** Equal digests have equal effects, or collide; presence shows in the length of what is hashed. */
  lemma TransparentBinds(h: Blake2b, xs: set<Call>, ys: set<Call>,
                         a: Option<TransparentBundle>, b: Option<TransparentBundle>)
    requires !Collision(h, xs, ys) && TransparentCalls(h, a) <= xs && TransparentCalls(h, b) <= ys
    requires GoodTransparent(a) && GoodTransparent(b)
    requires var p := if a.None? then None else Some(TransparentParts(h, a.value));
             var q := if b.None? then None else Some(TransparentParts(h, b.value));
             Digest(h, TransparentCall(p)) == Digest(h, TransparentCall(q))
    ensures SameTransparentEffects(a, b)
  {
    hide Concat;
    var p := if a.None? then None else Some(TransparentParts(h, a.value));
    var q := if b.None? then None else Some(TransparentParts(h, b.value));
    Same(h, xs, ys, TransparentCall(p), TransparentCall(q));
    if a.Some? && b.Some? {
      Unjoin3(p.value.prevouts, p.value.sequences, p.value.outputs,
              q.value.prevouts, q.value.sequences, q.value.outputs);
      Same(h, xs, ys, PrevoutsCall(a.value.vin), PrevoutsCall(b.value.vin));
      Same(h, xs, ys, SequencesCall(a.value.vin), SequencesCall(b.value.vin));
      Same(h, xs, ys, OutputsCall(a.value.vout), OutputsCall(b.value.vout));
      InputsBind(a.value.vin, b.value.vin);
      OutputListsAgree(a.value.vout, b.value.vout);
    }
  }

  lemma InputsBind(a: seq<TxIn>, b: seq<TxIn>)
    requires Concat(a, EncPrevout) == Concat(b, EncPrevout) && Concat(a, EncSequence) == Concat(b, EncSequence)
    ensures SameInputEffects(a, b)
  {
    ConcatFixedInjective(a, b, EncPrevout, 36);
    ConcatFixedInjective(a, b, EncSequence, 4);
    forall i | 0 <= i < |a| ensures a[i].prevout == b[i].prevout && a[i].sequence == b[i].sequence {
      assert EncPrevout(a[i]) == EncPrevout(b[i]) && EncSequence(a[i]) == EncSequence(b[i]);
      Unjoin(a[i].prevout.hash, LE(a[i].prevout.n, 4), b[i].prevout.hash, LE(b[i].prevout.n, 4));
      Pow256Table();
      LEInjective(4, a[i].prevout.n, b[i].prevout.n);
      LEInjective(4, a[i].sequence, b[i].sequence);
    }
  }

  lemma OutputListsAgree(a: seq<TxOut>, b: seq<TxOut>)
    requires (forall o :: o in a || o in b ==> GoodTxOut(o)) && Concat(a, EncTxOut) == Concat(b, EncTxOut)
    ensures a == b
  {
    forall o | o in a || o in b ensures RoundTrips(o, EncTxOut, ParseTxOut) && EncTxOut(o) != [] {
      forall t ensures ParseTxOut(EncTxOut(o) + t) == Done(o, t) {
        TxOutRoundTrip(o, t);
      }
      assert |EncTxOut(o)| >= 8;
    }
    ConcatInjective(a, b, EncTxOut, ParseTxOut);
  }

  predicate GoodScripts(scripts: seq<Bytes>) {
    forall x :: x in scripts ==> |x| <= MAX_COMPACT_SIZE
  }

  lemma ScriptListsAgree(a: seq<Bytes>, b: seq<Bytes>)
    requires GoodScripts(a) && GoodScripts(b) && Concat(a, EncBlob) == Concat(b, EncBlob)
    ensures a == b
  {
    forall s | s in a || s in b ensures RoundTrips(s, EncBlob, ParseBlob) && EncBlob(s) != [] {
      assert |EncBlob(s)| > 0;
      forall t ensures ParseBlob(EncBlob(s) + t) == Done(s, t) {
        BlobRoundTrip(s, t);
      }
    }
    ConcatInjective(a, b, EncBlob, ParseBlob);
  }

  lemma SpendsBind(h: Blake2b, xs: set<Call>, ys: set<Call>, v: TxVersion, a: seq<Spend>, b: seq<Spend>)
    requires !Collision(h, xs, ys) && SpendsCalls(h, v, a) <= xs && SpendsCalls(h, v, b) <= ys
    requires Digest(h, SpendsCall(h, v, a)) == Digest(h, SpendsCall(h, v, b))
    ensures SameSpendEffects(v, a, b)
  {
    hide Concat;
    Same(h, xs, ys, SpendsCall(h, v, a), SpendsCall(h, v, b));
    if a != [] && b != [] {
      Unjoin(Digest(h, SpendsCompactCall(a)), Digest(h, SpendsNoncompactCall(v, a)),
             Digest(h, SpendsCompactCall(b)), Digest(h, SpendsNoncompactCall(v, b)));
      Same(h, xs, ys, SpendsCompactCall(a), SpendsCompactCall(b));
      Same(h, xs, ys, SpendsNoncompactCall(v, a), SpendsNoncompactCall(v, b));
      SpendListsBind(v, a, b);
    }
  }

  lemma SpendListsBind(v: TxVersion, a: seq<Spend>, b: seq<Spend>)
    requires Concat(a, EncNullifier) == Concat(b, EncNullifier)
    requires Concat(a, SpendEncoder(v)) == Concat(b, SpendEncoder(v))
    ensures SameSpendEffects(v, a, b)
  {
    hide Concat;
    ConcatFixedInjective(a, b, EncNullifier, 32);
    ConcatFixedInjective(a, b, SpendEncoder(v), if CommitsToAnchor(v) then 96 else 64);
    forall i | 0 <= i < |a|
      ensures Compact(a[i]) == Compact(b[i]) && (CommitsToAnchor(v) ==> a[i].anchor == b[i].anchor)
    {
      assert EncNullifier(a[i]) == EncNullifier(b[i]) && SpendEncoder(v)(a[i]) == SpendEncoder(v)(b[i]);
      if CommitsToAnchor(v) {
        Unjoin3(a[i].cv, a[i].anchor, a[i].rk, b[i].cv, b[i].anchor, b[i].rk);
      } else {
        Unjoin(a[i].cv, a[i].rk, b[i].cv, b[i].rk);
      }
    }
  }

  lemma SaplingOutputsBind(h: Blake2b, xs: set<Call>, ys: set<Call>, a: seq<Output>, b: seq<Output>)
    requires !Collision(h, xs, ys) && SaplingOutputsCalls(h, a) <= xs && SaplingOutputsCalls(h, b) <= ys
    requires Digest(h, SaplingOutputsCall(h, a)) == Digest(h, SaplingOutputsCall(h, b))
    ensures SameOutputEffects(a, b)
  {
    hide Concat;
    Same(h, xs, ys, SaplingOutputsCall(h, a), SaplingOutputsCall(h, b));
    if a != [] && b != [] {
      Unjoin3(Digest(h, OutputsCompactCall(a)), Digest(h, OutputsMemosCall(a)), Digest(h, OutputsNoncompactCall(a)),
              Digest(h, OutputsCompactCall(b)), Digest(h, OutputsMemosCall(b)), Digest(h, OutputsNoncompactCall(b)));
      Same(h, xs, ys, OutputsCompactCall(a), OutputsCompactCall(b));
      Same(h, xs, ys, OutputsMemosCall(a), OutputsMemosCall(b));
      Same(h, xs, ys, OutputsNoncompactCall(a), OutputsNoncompactCall(b));
      OutputListsBind(a, b);
    }
  }

  /** The ciphertext is cut into three hashes and joined again. */
  lemma OutputListsBind(a: seq<Output>, b: seq<Output>)
    requires Concat(a, EncOutputCompact) == Concat(b, EncOutputCompact)
    requires Concat(a, EncOutputMemo) == Concat(b, EncOutputMemo)
    requires Concat(a, EncOutputNoncompact) == Concat(b, EncOutputNoncompact)
    ensures SameOutputEffects(a, b)
  {
    hide Concat;
    ConcatFixedInjective(a, b, EncOutputCompact, 116);
    ConcatFixedInjective(a, b, EncOutputMemo, 512);
    ConcatFixedInjective(a, b, EncOutputNoncompact, 128);
    forall i | 0 <= i < |a| ensures CompactOutput(a[i]) == CompactOutput(b[i]) {
      var x, y := a[i], b[i];
      assert EncOutputCompact(x) == EncOutputCompact(y) && EncOutputMemo(x) == EncOutputMemo(y);
      assert EncOutputNoncompact(x) == EncOutputNoncompact(y);
      Unjoin3(x.cmu, x.epk, x.enc[..52], y.cmu, y.epk, y.enc[..52]);
      Unjoin3(x.cv, x.enc[564..], x.out, y.cv, y.enc[564..], y.out);
      assert x.enc == x.enc[..52] + x.enc[52..564] + x.enc[564..];
      assert y.enc == y.enc[..52] + y.enc[52..564] + y.enc[564..];
    }
  }

  lemma SaplingBinds(h: Blake2b, xs: set<Call>, ys: set<Call>, v: TxVersion,
                     a: Option<SaplingBundle>, b: Option<SaplingBundle>)
    requires !Collision(h, xs, ys) && SaplingCalls(h, v, a) <= xs && SaplingCalls(h, v, b) <= ys
    requires a.Some? ==> !NoDescriptions(a.value)
    requires b.Some? ==> !NoDescriptions(b.value)
    requires Digest(h, SaplingCall(h, v, a)) == Digest(h, SaplingCall(h, v, b))
    ensures SameSaplingEffects(v, a, b)
  {
    hide SpendsCall, SaplingOutputsCall, EncBalance, SpendsCalls, SaplingOutputsCalls;
    Same(h, xs, ys, SaplingCall(h, v, a), SaplingCall(h, v, b));
    if a.Some? && b.Some? {
      var x, y := a.value, b.value;
      Unjoin3(Digest(h, SpendsCall(h, v, x.spends)), Digest(h, SaplingOutputsCall(h, x.outputs)),
              EncBalance(x.valueBalance),
              Digest(h, SpendsCall(h, v, y.spends)), Digest(h, SaplingOutputsCall(h, y.outputs)),
              EncBalance(y.valueBalance));
      SpendsBind(h, xs, ys, v, x.spends, y.spends);
      SaplingOutputsBind(h, xs, ys, x.outputs, y.outputs);
      BalanceRoundTrip(x.valueBalance, []);
      BalanceRoundTrip(y.valueBalance, []);
    }
  }

  /** The parts below two equal roots are equal; the version, once known, says what the last one is. */
  lemma RootBinds(h: Blake2b, c: Commitments, a: TxData, b: TxData, t: Bytes32, u: Bytes32)
    requires RootCall(h, c, a.version, a.branch, t, PartsOf(h, c, a)) ==
             RootCall(h, c, b.version, b.branch, u, PartsOf(h, c, b))
    ensures Digest(h, HeaderCall(a)) == Digest(h, HeaderCall(b)) && t == u
    ensures Digest(h, SaplingCall(h, a.version, a.sapling)) == Digest(h, SaplingCall(h, b.version, b.sapling))
    ensures OrchardTxid(c, a.version, a.orchard) == OrchardTxid(c, b.version, b.orchard)
    ensures a.version == b.version && HasIronwood(a.version) ==>
              IronwoodTxid(c, a.ironwood) == IronwoodTxid(c, b.ironwood)
    ensures a.version == b.version && !HasIronwood(a.version) ==>
              a.staking.Some? == b.staking.Some? &&
              (a.staking.Some? ==>
                 Digest(h, CrosslinkCall(a.staking.value)) == Digest(h, CrosslinkCall(b.staking.value)))
  {
    hide LE, HeaderCall, CrosslinkCall;
    var p, q := PartsOf(h, c, a), PartsOf(h, c, b);
    var lastA, lastB := LastPart(c, a.version, p), LastPart(c, b.version, q);
    Unjoin5(p.header, t, Or(p.sapling, Digest(h, Call(SAPLING, []))),
            Or(p.orchard, OrchardTxid(c, a.version, None)), lastA,
            q.header, u, Or(q.sapling, Digest(h, Call(SAPLING, []))),
            Or(q.orchard, OrchardTxid(c, b.version, None)), lastB);
  }

  /** Equal identifiers fix everything but the witnesses, or collide. */
  lemma TxidBinds(h: Blake2b, c: Commitments, k: Rules, xs: set<Call>, ys: set<Call>, a: TxData, b: TxData)
    requires !Collision(h, xs, ys) && TxidCalls(h, c, a) <= xs && TxidCalls(h, c, b) <= ys
    requires GoodVersion(a.version) && GoodVersion(b.version) && GoodModern(k, a) && GoodModern(k, b)
    requires Txid(h, c, a) == Txid(h, c, b)
    ensures SameEffects(a, b)
    ensures OrchardTxid(c, a.version, a.orchard) == OrchardTxid(c, a.version, b.orchard)
    ensures HasIronwood(a.version) ==> IronwoodTxid(c, a.ironwood) == IronwoodTxid(c, b.ironwood)
  {
    hide HeaderCall, TransparentCall, SaplingCall, CrosslinkCall, TransparentCalls, GoodTransparent, GoodSapling;
    hide SameTransparentEffects, SameSaplingEffects;
    var p, q := PartsOf(h, c, a), PartsOf(h, c, b);
    var t, u := Digest(h, TransparentCall(p.transparent)), Digest(h, TransparentCall(q.transparent));
    Same(h, xs, ys, TxidCall(h, c, a), TxidCall(h, c, b));
    RootBinds(h, c, a, b, t, u);
    Same(h, xs, ys, HeaderCall(a), HeaderCall(b));
    HeaderBinds(a, b);
    TransparentBinds(h, xs, ys, a.transparent, b.transparent);
    NoEmptySapling(k, a);
    NoEmptySapling(k, b);
    SaplingBinds(h, xs, ys, a.version, a.sapling, b.sapling);
    StakingBinds(h, xs, ys, a, b);
  }

  lemma NoEmptySapling(k: Rules, d: TxData)
    requires GoodModern(k, d)
    ensures d.sapling.Some? ==> !NoDescriptions(d.sapling.value)
  {
  }

  lemma StakingBinds(h: Blake2b, xs: set<Call>, ys: set<Call>, a: TxData, b: TxData)
    requires !Collision(h, xs, ys) && a.version == b.version
    requires a.staking.Some? ==> CrosslinkCall(a.staking.value) in xs
    requires b.staking.Some? ==> CrosslinkCall(b.staking.value) in ys
    requires !HasCrosslink(a.version) ==> a.staking.None? && b.staking.None?
    requires HasCrosslink(a.version) ==>
               a.staking.Some? == b.staking.Some? &&
               (a.staking.Some? ==>
                 Digest(h, CrosslinkCall(a.staking.value)) == Digest(h, CrosslinkCall(b.staking.value)))
    ensures a.staking == b.staking
  {
    if a.staking.Some? {
      Same(h, xs, ys, CrosslinkCall(a.staking.value), CrosslinkCall(b.staking.value));
      StakingInjective(a.staking, b.staking);
    }
  }

  //////////////////////////////////////////////////////////////////////////////
  // Witnesses: what the authorizing commitment adds
  //////////////////////////////////////////////////////////////////////////////

  lemma ScriptsBind(k: Rules, a: TxData, b: TxData)
    requires GoodTransparent(a.transparent) && GoodTransparent(b.transparent)
    requires SameTransparentEffects(a.transparent, b.transparent)
    requires AuthScriptsCall(a.transparent) == AuthScriptsCall(b.transparent)
    ensures a.transparent == b.transparent
  {
    if a.transparent.Some? {
      var x, y := a.transparent.value.vin, b.transparent.value.vin;
      var p, q := Map(x, ScriptSigOf), Map(y, ScriptSigOf);
      ConcatAlike(x, EncScriptSig, p, EncBlob);
      ConcatAlike(y, EncScriptSig, q, EncBlob);
      ScriptsFit(x);
      ScriptsFit(y);
      ScriptListsAgree(p, q);
      forall i | 0 <= i < |x| ensures x[i] == y[i] {
        assert p[i] == q[i];
      }
      assert x == y;
    }
  }

  function ScriptSigOf(i: TxIn): Bytes { i.scriptSig }

  lemma ScriptsFit(vin: seq<TxIn>)
    requires GoodInputs(vin)
    ensures GoodScripts(Map(vin, ScriptSigOf))
  {
    forall s | s in Map(vin, ScriptSigOf) ensures |s| <= MAX_COMPACT_SIZE {
      var i :| 0 <= i < |vin| && s == Map(vin, ScriptSigOf)[i];
      assert vin[i] in vin;
    }
  }

  /** Once the counts are known, the concatenated witnesses come apart in one way. */
  lemma WitnessesBind(v: TxVersion, a: SaplingBundle, b: SaplingBundle)
    requires |a.spends| == |b.spends| && |a.outputs| == |b.outputs|
    requires AuthSaplingCall(v, Some(a)) == AuthSaplingCall(v, Some(b))
    ensures WitnessesOf(a) == WitnessesOf(b) && a.bindingSig == b.bindingSig
    ensures AuthAnchor(v, a) == AuthAnchor(v, b)
  {
    hide ParseWitnesses, EncWitnesses;
    WitnessesRoundTrip(WitnessesOf(a), AuthAnchor(v, a));
    WitnessesRoundTrip(WitnessesOf(b), AuthAnchor(v, b));
  }

  lemma {:induction false} ConcatOfZeros<T>(xs: seq<T>, enc: T -> Bytes, width: nat, total: nat)
    requires total == |xs| * width && forall x :: x in xs ==> enc(x) == Zeros(width)
    ensures Concat(xs, enc) == Zeros(total)
  {
    if xs != [] {
      assert total - width == (|xs| - 1) * width && total >= width by {
        LengthOfRest(|xs|, width);
      }
      ConcatOfZeros(xs[1..], enc, width, total - width);
      assert enc(xs[0]) == Zeros(width);
      assert Zeros(width) + Zeros(total - width) == Zeros(total);
    }
  }

  lemma LengthOfRest(n: nat, width: nat)
    requires n > 0
    ensures n * width == (n - 1) * width + width
  {
  }

  /** A bundle of that many spends and outputs, all of zeros. */
  function Blank(spends: nat, outputs: nat): SaplingBundle {
    SaplingBundle(
      seq(spends, _ => Spend(Zeros(32), Zeros(32), Zeros(32), Zeros(32), Zeros(192), Zeros(64))),
      seq(outputs, _ => Output(Zeros(32), Zeros(32), Zeros(32), Zeros(580), Zeros(80), Zeros(192))),
      0, Zeros(64))
  }

  lemma BlankWitnesses(spends: nat, outputs: nat)
    ensures EncWitnesses(WitnessesOf(Blank(spends, outputs))) == Zeros(256 * spends + 192 * outputs + 64)
  {
    var w := WitnessesOf(Blank(spends, outputs));
    ConcatOfZeros(w.spendProofs, RawProof, 192, 192 * spends);
    ConcatOfZeros(w.spendSigs, RawSig, 64, 64 * spends);
    ConcatOfZeros(w.outputProofs, RawProof, 192, 192 * outputs);
    assert EncWitnesses(w) == Zeros(256 * spends + 192 * outputs + 64);
  }

  lemma BlankAuth(v: TxVersion, spends: nat, outputs: nat)
    ensures AuthSaplingCall(v, Some(Blank(spends, outputs))).input == Zeros(AuthLength(v, spends, outputs))
  {
    BlankWitnesses(spends, outputs);
    hide WitnessesOf, EncWitnesses;
    var b := Blank(spends, outputs);
    assert spends > 0 ==> b.spends[0].anchor == Zeros(32);
    assert Zeros(256 * spends + 192 * outputs + 64) + AuthAnchor(v, b) == Zeros(AuthLength(v, spends, outputs));
  }

  /** The length of the authorizing preimage of a Sapling bundle with these counts. */
  function AuthLength(v: TxVersion, spends: nat, outputs: nat): nat {
    256 * spends + 192 * outputs + 64 + if !CommitsToAnchor(v) && spends > 0 then 32 else 0
  }

  lemma {:induction false} ConcatLength<T>(xs: seq<T>, enc: T -> Bytes, width: nat)
    requires forall x :: x in xs ==> |enc(x)| == width
    ensures |Concat(xs, enc)| == |xs| * width
  {
    if xs != [] {
      ConcatLength(xs[1..], enc, width);
      LengthOfRest(|xs|, width);
    }
  }

  lemma AuthInputLength(v: TxVersion, b: SaplingBundle)
    ensures |AuthSaplingCall(v, Some(b)).input| == AuthLength(v, |b.spends|, |b.outputs|)
  {
    var w := WitnessesOf(b);
    ConcatLength(w.spendProofs, RawProof, 192);
    ConcatLength(w.spendSigs, RawSig, 64);
    ConcatLength(w.outputProofs, RawProof, 192);
    hide WitnessesOf, Concat;
  }

  /** Some two bundles with these counts, each with one anchor, have one authorizing preimage. */
  ghost predicate ShareAuth(v: TxVersion, spends: nat, outputs: nat, spends': nat, outputs': nat) {
    exists a: SaplingBundle, b: SaplingBundle ::
      && |a.spends| == spends && |a.outputs| == outputs && SharedAnchor(a.spends)
      && |b.spends| == spends' && |b.outputs| == outputs' && SharedAnchor(b.spends)
      && AuthSaplingCall(v, Some(a)) == AuthSaplingCall(v, Some(b))
  }

  /**
   * Counts first: without the identifier, bundles with these counts can share a preimage exactly when
   * four times the spends and three times the outputs add up alike, and, where the anchor is
   * authorizing data, both or neither have a spend.
   */
  lemma AuthAmbiguousExactly(v: TxVersion, spends: nat, outputs: nat, spends': nat, outputs': nat)
    ensures ShareAuth(v, spends, outputs, spends', outputs') <==>
            && 4 * spends + 3 * outputs == 4 * spends' + 3 * outputs'
            && (!CommitsToAnchor(v) ==> (spends > 0 <==> spends' > 0))
  {
    SameLength(v, spends, outputs, spends', outputs');
    if ShareAuth(v, spends, outputs, spends', outputs') {
      var a: SaplingBundle, b: SaplingBundle :|
        && |a.spends| == spends && |a.outputs| == outputs && SharedAnchor(a.spends)
        && |b.spends| == spends' && |b.outputs| == outputs' && SharedAnchor(b.spends)
        && AuthSaplingCall(v, Some(a)) == AuthSaplingCall(v, Some(b));
      AuthInputLength(v, a);
      AuthInputLength(v, b);
      hide AuthSaplingCall, AuthLength;
    }
    if AuthLength(v, spends, outputs) == AuthLength(v, spends', outputs') {
      BlankAuth(v, spends, outputs);
      BlankAuth(v, spends', outputs');
      BlanksShare(v, spends, outputs, spends', outputs');
    }
  }

  lemma SameLength(v: TxVersion, spends: nat, outputs: nat, spends': nat, outputs': nat)
    ensures AuthLength(v, spends, outputs) == AuthLength(v, spends', outputs') <==>
            && 4 * spends + 3 * outputs == 4 * spends' + 3 * outputs'
            && (!CommitsToAnchor(v) ==> (spends > 0 <==> spends' > 0))
  {
    var x, y := 4 * spends + 3 * outputs, 4 * spends' + 3 * outputs';
    assert 256 * spends + 192 * outputs == 64 * x && 256 * spends' + 192 * outputs' == 64 * y;
  }

  lemma BlanksShare(v: TxVersion, spends: nat, outputs: nat, spends': nat, outputs': nat)
    requires AuthSaplingCall(v, Some(Blank(spends, outputs))).input
          == AuthSaplingCall(v, Some(Blank(spends', outputs'))).input
    ensures ShareAuth(v, spends, outputs, spends', outputs')
  {
    var a, b := Blank(spends, outputs), Blank(spends', outputs');
    assert SharedAnchor(a.spends) && SharedAnchor(b.spends);
    hide WitnessesOf, EncWitnesses, AuthAnchor;
    assert AuthSaplingCall(v, Some(a)) == AuthSaplingCall(v, Some(b));
  }

  lemma SpendsAgree(v: TxVersion, a: SaplingBundle, b: SaplingBundle)
    requires SameSpendEffects(v, a.spends, b.spends) && SharedAnchor(a.spends) && SharedAnchor(b.spends)
    requires WitnessesOf(a) == WitnessesOf(b) && AuthAnchor(v, a) == AuthAnchor(v, b)
    ensures a.spends == b.spends
  {
    var x, y := WitnessesOf(a), WitnessesOf(b);
    forall i | 0 <= i < |a.spends| ensures a.spends[i] == b.spends[i] {
      assert Compact(a.spends[i]) == Compact(b.spends[i]);
      assert x.spendProofs[i] == y.spendProofs[i] && x.spendSigs[i] == y.spendSigs[i];
    }
  }

  lemma OutputsAgree(a: SaplingBundle, b: SaplingBundle)
    requires SameOutputEffects(a.outputs, b.outputs) && WitnessesOf(a) == WitnessesOf(b)
    ensures a.outputs == b.outputs
  {
    var x, y := WitnessesOf(a), WitnessesOf(b);
    forall i | 0 <= i < |a.outputs| ensures a.outputs[i] == b.outputs[i] {
      assert CompactOutput(a.outputs[i]) == CompactOutput(b.outputs[i]);
      assert x.outputProofs[i] == y.outputProofs[i];
    }
  }

  lemma SaplingAgrees(k: Rules, a: TxData, b: TxData)
    requires GoodSaplingV5(k.curves, a.sapling) && GoodSaplingV5(k.curves, b.sapling) && a.version == b.version
    requires SameSaplingEffects(a.version, a.sapling, b.sapling)
    requires AuthSaplingCall(a.version, a.sapling) == AuthSaplingCall(b.version, b.sapling)
    ensures a.sapling == b.sapling
  {
    hide AuthSaplingCall, WitnessesOf, GoodSapling, SharedAnchor, AuthAnchor;
    if a.sapling.Some? {
      var x, y := a.sapling.value, b.sapling.value;
      WitnessesBind(a.version, x, y);
      SpendsAgree(a.version, x, y);
      OutputsAgree(x, y);
    }
  }

  //////////////////////////////////////////////////////////////////////////////
  // The whole transaction
  //////////////////////////////////////////////////////////////////////////////

  ghost function AllCalls(h: Blake2b, c: Commitments, d: TxData): set<Call> {
    TxidCalls(h, c, d) + AuthCalls(h, c, d)
  }

  lemma AuthRootBinds(h: Blake2b, c: Commitments, a: TxData, b: TxData)
    requires a.version == b.version && AuthCall(h, c, a) == AuthCall(h, c, b)
    ensures Digest(h, AuthScriptsCall(a.transparent)) == Digest(h, AuthScriptsCall(b.transparent))
    ensures Digest(h, AuthSaplingCall(a.version, a.sapling)) == Digest(h, AuthSaplingCall(b.version, b.sapling))
    ensures OrchardAuth(c, a.version, a.orchard) == OrchardAuth(c, b.version, b.orchard)
    ensures HasIronwood(a.version) ==> IronwoodAuth(c, a.ironwood) == IronwoodAuth(c, b.ironwood)
  {
    hide LE, AuthScriptsCall, AuthSaplingCall, AuthCrosslinkCall;
    var v := a.version;
    Unjoin5(Digest(h, AuthScriptsCall(a.transparent)), Digest(h, AuthSaplingCall(v, a.sapling)),
            OrchardAuth(c, v, a.orchard), Digest(h, AuthCrosslinkCall(a.staking)),
            if HasIronwood(v) then IronwoodAuth(c, a.ironwood) else [],
            Digest(h, AuthScriptsCall(b.transparent)), Digest(h, AuthSaplingCall(v, b.sapling)),
            OrchardAuth(c, v, b.orchard), Digest(h, AuthCrosslinkCall(b.staking)),
            if HasIronwood(v) then IronwoodAuth(c, b.ironwood) else []);
  }

  lemma AuthBinds(h: Blake2b, c: Commitments, k: Rules, xs: set<Call>, ys: set<Call>, a: TxData, b: TxData)
    requires !Collision(h, xs, ys) && AuthCalls(h, c, a) <= xs && AuthCalls(h, c, b) <= ys
    requires GoodModern(k, a) && GoodModern(k, b) && SameEffects(a, b)
    requires AuthCommitment(h, c, a) == AuthCommitment(h, c, b)
    ensures a.transparent == b.transparent && a.sapling == b.sapling
    ensures OrchardAuth(c, a.version, a.orchard) == OrchardAuth(c, a.version, b.orchard)
    ensures HasIronwood(a.version) ==> IronwoodAuth(c, a.ironwood) == IronwoodAuth(c, b.ironwood)
  {
    hide LE, AuthScriptsCall, AuthSaplingCall, AuthCrosslinkCall, GoodTransparent, GoodSaplingV5;
    hide SameTransparentEffects;
    hide SameSaplingEffects, GoodOrchard;
    Same(h, xs, ys, AuthCall(h, c, a), AuthCall(h, c, b));
    AuthRootBinds(h, c, a, b);
    var v := a.version;
    Same(h, xs, ys, AuthScriptsCall(a.transparent), AuthScriptsCall(b.transparent));
    Same(h, xs, ys, AuthSaplingCall(v, a.sapling), AuthSaplingCall(v, b.sapling));
    ScriptsBind(k, a, b);
    SaplingAgrees(k, a, b);
  }

  /**
   * Two transactions that some reader can produce, with the same identifier and the same
   * authorizing commitment, are the same field for field, or a hash or Orchard collision is at hand.
   */
  lemma TxidAndAuthBind(h: Blake2b, c: Commitments, k: Rules, a: TxData, b: TxData)
    requires Readable(k, a) && Readable(k, b) && !Legacy(a.version) && !Legacy(b.version)
    requires Txid(h, c, a) == Txid(h, c, b) && AuthCommitment(h, c, a) == AuthCommitment(h, c, b)
    ensures || a == b
            || Collision(h, AllCalls(h, c, a), AllCalls(h, c, b))
            || OrchardCollision(c, OrchardPool, OrchardDomain(a.version), a.orchard, b.orchard)
            || OrchardCollision(c, IronwoodPool, OrchardTxV6, a.ironwood, b.ironwood)
  {
    var xs, ys := AllCalls(h, c, a), AllCalls(h, c, b);
    if !Collision(h, xs, ys) {
      hide TxidCalls, AuthCalls, Txid, AuthCommitment, Collision, GoodTransparent, GoodSaplingV5, GoodOrchard;
      hide SameTransparentEffects, SameSaplingEffects;
      TxidBinds(h, c, k, xs, ys, a, b);
      AuthBinds(h, c, k, xs, ys, a, b);
    }
  }

  //////////////////////////////////////////////////////////////////////////////
  // Anchors
  //////////////////////////////////////////////////////////////////////////////

  function Reanchored(spends: seq<Spend>, anchor: Bytes32): (r: seq<Spend>)
    ensures |r| == |spends| && SharedAnchor(r)
  {
    seq(|spends|, i requires 0 <= i < |spends| => spends[i].(anchor := anchor))
  }

  /** The same transaction with all Sapling spends moved to another anchor. */
  function WithAnchor(d: TxData, anchor: Bytes32): TxData {
    match d.sapling
    case None => d
    case Some(b) => d.(sapling := Some(b.(spends := Reanchored(b.spends, anchor))))
  }

  /** From v6 on the identifier, and every part the signature hashes use, is blind to the anchor. */
  lemma AnchorIsNoEffectInV6(h: Blake2b, c: Commitments, d: TxData, anchor: Bytes32)
    requires d.version.V6?
    ensures PartsOf(h, c, WithAnchor(d, anchor)) == PartsOf(h, c, d)
    ensures Txid(h, c, WithAnchor(d, anchor)) == Txid(h, c, d)
  {
    if d.sapling.Some? {
      var spends, moved := d.sapling.value.spends, Reanchored(d.sapling.value.spends, anchor);
      ConcatAlike(moved, EncNullifier, spends, EncNullifier);
      ConcatAlike(moved, EncUnanchored, spends, EncUnanchored);
      assert SpendsCall(h, V6, moved) == SpendsCall(h, V6, spends);
      hide SpendsCall, SaplingOutputsCall, EncBalance, Reanchored;
      assert (spends == []) == (moved == []);
      assert SaplingCall(h, V6, WithAnchor(d, anchor).sapling) == SaplingCall(h, V6, d.sapling);
      hide SaplingCall, TransparentParts;
    }
  }

  function AnchorsOf(d: TxData): seq<Bytes32> {
    if d.sapling.None? then [] else Map(d.sapling.value.spends, SpendAnchor)
  }

  function SpendAnchor(s: Spend): Bytes32 { s.anchor }

  /** Before v6 equal identifiers already force equal anchors, or collide. */
  lemma AnchorIsAnEffectBeforeV6(h: Blake2b, c: Commitments, k: Rules, a: TxData, b: TxData)
    requires Readable(k, a) && Readable(k, b) && !Legacy(a.version) && !Legacy(b.version) && CommitsToAnchor(a.version)
    requires Txid(h, c, a) == Txid(h, c, b)
    ensures AnchorsOf(a) == AnchorsOf(b) || Collision(h, TxidCalls(h, c, a), TxidCalls(h, c, b))
  {
    if !Collision(h, TxidCalls(h, c, a), TxidCalls(h, c, b)) {
      hide TxidCalls, Txid, Collision, GoodTransparent, GoodSaplingV5, GoodOrchard, SameTransparentEffects;
      TxidBinds(h, c, k, TxidCalls(h, c, a), TxidCalls(h, c, b), a, b);
      assert AnchorsOf(a) == AnchorsOf(b);
    }
  }

  /** In v6 it is the authorizing commitment that the anchor changes, or it collides. */
  lemma AnchorIsAuthorizedInV6(h: Blake2b, c: Commitments, d: TxData, anchor: Bytes32)
    requires d.version.V6? && d.sapling.Some? && d.sapling.value.spends != []
    requires anchor != d.sapling.value.spends[0].anchor
    requires AuthCommitment(h, c, WithAnchor(d, anchor)) == AuthCommitment(h, c, d)
    ensures Collision(h, AuthCalls(h, c, WithAnchor(d, anchor)), AuthCalls(h, c, d))
  {
    var e := WithAnchor(d, anchor);
    var xs, ys := AuthCalls(h, c, e), AuthCalls(h, c, d);
    if !Collision(h, xs, ys) {
      hide AuthCall, AuthScriptsCall, AuthSaplingCall, AuthCrosslinkCall, Collision, Reanchored;
      Same(h, xs, ys, AuthCall(h, c, e), AuthCall(h, c, d));
      AuthRootBinds(h, c, e, d);
      Same(h, xs, ys, AuthSaplingCall(V6, e.sapling), AuthSaplingCall(V6, d.sapling));
      WitnessesBind(V6, e.sapling.value, d.sapling.value);
      MovedAnchor(d, anchor);
    }
  }

  lemma MovedAnchor(d: TxData, anchor: Bytes32)
    requires d.sapling.Some? && d.sapling.value.spends != []
    ensures AuthAnchor(V6, WithAnchor(d, anchor).sapling.value) == anchor
  {
  }
}
