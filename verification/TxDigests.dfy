/** The trees of hashes behind transaction identifiers and authorizing commitments (ZIP 244, ZIP 229). */
module TxDigests {
  import opened ByteStrings
  import opened Io
  import opened Orchard
  import opened Sapling
  import opened Schedules
  import opened Staking
  import opened Transactions
  import opened Transparent
  import opened TxVersions
  import opened Values

  /** BLAKE2b-256 with a personalization; nothing is assumed about it. */
  type Blake2b = (Bytes, Bytes) -> Bytes32

  /** One use of the hash function. */
  datatype Call = Call(personal: Bytes, input: Bytes)

  function Digest(h: Blake2b, c: Call): Bytes32 {
    h(c.personal, c.input)
  }

  datatype OrchardTxVersion = OrchardTxV5 | OrchardTxV6

  /** The orchard crate's commitments to an effecting and an authorizing half; absent bundles have one too. */
  datatype Commitments = Commitments(
    txid: (ValuePool, OrchardTxVersion, Option<OrchardBundle>) -> Bytes32,
    auth: (ValuePool, OrchardTxVersion, Option<OrchardBundle>) -> Bytes32)

  function OrchardDomain(v: TxVersion): OrchardTxVersion {
    if v.V6? then OrchardTxV6 else OrchardTxV5
  }

  function OrchardTxid(c: Commitments, v: TxVersion, b: Option<OrchardBundle>): Bytes32 {
    c.txid(OrchardPool, OrchardDomain(v), b)
  }

  function OrchardAuth(c: Commitments, v: TxVersion, b: Option<OrchardBundle>): Bytes32 {
    c.auth(OrchardPool, OrchardDomain(v), b)
  }

  function IronwoodTxid(c: Commitments, b: Option<OrchardBundle>): Bytes32 {
    c.txid(IronwoodPool, OrchardTxV6, b)
  }

  function IronwoodAuth(c: Commitments, b: Option<OrchardBundle>): Bytes32 {
    c.auth(IronwoodPool, OrchardTxV6, b)
  }

  //////////////////////////////////////////////////////////////////////////////
  // Personalizations
  //////////////////////////////////////////////////////////////////////////////

  function Ascii(s: string): (b: Bytes)
    ensures |b| == |s|
  {
    seq(|s|, i requires 0 <= i < |s| => s[i] as int % 256)
  }

  const TX_PREFIX: Bytes := Ascii("ZcashTxHash_")
  const HEADERS: Bytes := Ascii("ZTxIdHeadersHash")
  const TRANSPARENT: Bytes := Ascii("ZTxIdTranspaHash")
  const SAPLING: Bytes := Ascii("ZTxIdSaplingHash")
  const CROSSLINK: Bytes := Ascii("ZTxCrosslinkHash")
  const PREVOUTS: Bytes := Ascii("ZTxIdPrevoutHash")
  const SEQUENCES: Bytes := Ascii("ZTxIdSequencHash")
  const OUTPUTS: Bytes := Ascii("ZTxIdOutputsHash")
  const SPENDS: Bytes := Ascii("ZTxIdSSpendsHash")
  const SPENDS_COMPACT: Bytes := Ascii("ZTxIdSSpendCHash")
  const SPENDS_NONCOMPACT: Bytes := Ascii("ZTxIdSSpendNHash")
  const SPENDS_NONCOMPACT_V6: Bytes := Ascii("ZTxIdSSpendNH_v6")
  const SAPLING_OUTPUTS: Bytes := Ascii("ZTxIdSOutputHash")
  const OUTPUTS_COMPACT: Bytes := Ascii("ZTxIdSOutC__Hash")
  const OUTPUTS_MEMOS: Bytes := Ascii("ZTxIdSOutM__Hash")
  const OUTPUTS_NONCOMPACT: Bytes := Ascii("ZTxIdSOutN__Hash")
  const AUTH_PREFIX: Bytes := Ascii("ZTxAuthHash_")
  const AUTH_SCRIPTS: Bytes := Ascii("ZTxAuthTransHash")
  const AUTH_SAPLING: Bytes := Ascii("ZTxAuthSapliHash")
  const AUTH_SAPLING_V6: Bytes := Ascii("ZTxAuthSapliH_v6")

  //////////////////////////////////////////////////////////////////////////////
  // The transaction identifier's tree
  //////////////////////////////////////////////////////////////////////////////

  function HeaderCall(d: TxData): Call {
    Call(HEADERS, LE(HeaderWord(d.version), 4) + LE(VersionGroupId(d.version), 4) + LE(BranchToU32(d.branch), 4)
                  + LE(d.lockTime, 4) + LE(d.expiry, 4))
  }

  function EncPrevout(i: TxIn): Bytes { EncOutPoint(i.prevout) }

  function EncSequence(i: TxIn): Bytes { LE(i.sequence, 4) }

  function PrevoutsCall(vin: seq<TxIn>): Call { Call(PREVOUTS, Concat(vin, EncPrevout)) }

  function SequencesCall(vin: seq<TxIn>): Call { Call(SEQUENCES, Concat(vin, EncSequence)) }

  function OutputsCall(vout: seq<TxOut>): Call { Call(OUTPUTS, Concat(vout, EncTxOut)) }

  datatype TransparentDigests = TransparentDigests(prevouts: Bytes32, sequences: Bytes32, outputs: Bytes32)

  function TransparentParts(h: Blake2b, b: TransparentBundle): TransparentDigests {
    TransparentDigests(Digest(h, PrevoutsCall(b.vin)), Digest(h, SequencesCall(b.vin)), Digest(h, OutputsCall(b.vout)))
  }

  function TransparentCall(p: Option<TransparentDigests>): Call {
    Call(TRANSPARENT, match p case None => [] case Some(p) => p.prevouts + p.sequences + p.outputs)
  }

  function EncNullifier(s: Spend): Bytes { s.nullifier }

  /** From v6 on the anchor is not part of the transaction's effects. */
  predicate CommitsToAnchor(v: TxVersion) {
    !v.V6?
  }

  function EncAnchored(s: Spend): Bytes { s.cv + s.anchor + s.rk }

  function EncUnanchored(s: Spend): Bytes { s.cv + s.rk }

  function SpendEncoder(v: TxVersion): Spend -> Bytes {
    if CommitsToAnchor(v) then EncAnchored else EncUnanchored
  }

  function SpendsCompactCall(spends: seq<Spend>): Call { Call(SPENDS_COMPACT, Concat(spends, EncNullifier)) }

  function SpendsNoncompactCall(v: TxVersion, spends: seq<Spend>): Call {
    Call(if CommitsToAnchor(v) then SPENDS_NONCOMPACT else SPENDS_NONCOMPACT_V6, Concat(spends, SpendEncoder(v)))
  }

  function SpendsCall(h: Blake2b, v: TxVersion, spends: seq<Spend>): Call {
    Call(SPENDS, if spends == [] then [] else
      Digest(h, SpendsCompactCall(spends)) + Digest(h, SpendsNoncompactCall(v, spends)))
  }

  function EncOutputCompact(o: Output): Bytes { o.cmu + o.epk + o.enc[..52] }

  function EncOutputMemo(o: Output): Bytes { o.enc[52..564] }

  function EncOutputNoncompact(o: Output): Bytes { o.cv + o.enc[564..] + o.out }

  function OutputsCompactCall(outputs: seq<Output>): Call { Call(OUTPUTS_COMPACT, Concat(outputs, EncOutputCompact)) }

  function OutputsMemosCall(outputs: seq<Output>): Call { Call(OUTPUTS_MEMOS, Concat(outputs, EncOutputMemo)) }

  function OutputsNoncompactCall(outputs: seq<Output>): Call {
    Call(OUTPUTS_NONCOMPACT, Concat(outputs, EncOutputNoncompact))
  }

  function SaplingOutputsCall(h: Blake2b, outputs: seq<Output>): Call {
    Call(SAPLING_OUTPUTS, if outputs == [] then [] else
      Digest(h, OutputsCompactCall(outputs)) + Digest(h, OutputsMemosCall(outputs))
      + Digest(h, OutputsNoncompactCall(outputs)))
  }

  function SaplingCall(h: Blake2b, v: TxVersion, b: Option<SaplingBundle>): Call {
    Call(SAPLING, if b.None? || (b.value.spends == [] && b.value.outputs == []) then [] else
      Digest(h, SpendsCall(h, v, b.value.spends)) + Digest(h, SaplingOutputsCall(h, b.value.outputs))
      + EncBalance(b.value.valueBalance))
  }

  function CrosslinkCall(a: StakingAction): Call {
    Call(CROSSLINK, EncStaking(Some(a)))
  }

  /** What the digester hands on to both the identifier and the signature hashes. */
  datatype TxidParts = TxidParts(
    header: Bytes32, transparent: Option<TransparentDigests>, sapling: Option<Bytes32>, orchard: Option<Bytes32>,
    ironwood: Option<Bytes32>, crosslink: Option<Bytes32>)

  function PartsOf(h: Blake2b, c: Commitments, d: TxData): TxidParts {
    TxidParts(
      Digest(h, HeaderCall(d)),
      if d.transparent.None? then None else Some(TransparentParts(h, d.transparent.value)),
      if d.sapling.None? then None else Some(Digest(h, SaplingCall(h, d.version, d.sapling))),
      if d.orchard.None? then None else Some(OrchardTxid(c, d.version, d.orchard)),
      if d.ironwood.None? then None else Some(IronwoodTxid(c, d.ironwood)),
      if d.staking.None? then None else Some(Digest(h, CrosslinkCall(d.staking.value))))
  }

  function Or(b: Option<Bytes32>, otherwise: Bytes32): Bytes32 {
    if b.Some? then b.value else otherwise
  }

  /** What is appended last: the Ironwood digest in v6, a present staking action's digest elsewhere. */
  function LastPart(c: Commitments, v: TxVersion, p: TxidParts): Bytes {
    if HasIronwood(v) then Or(p.ironwood, IronwoodTxid(c, None))
    else if p.crosslink.Some? then p.crosslink.value
    else []
  }

  /** The root: a transparent digest and the other parts, with the branch in the personalization. */
  function RootCall(h: Blake2b, c: Commitments, v: TxVersion, branch: BranchId, transparent: Bytes32, p: TxidParts)
    : Call
  {
    var sapling := Or(p.sapling, Digest(h, Call(SAPLING, [])));
    var orchard := Or(p.orchard, OrchardTxid(c, v, None));
    Call(TX_PREFIX + LE(BranchToU32(branch), 4), p.header + transparent + sapling + orchard + LastPart(c, v, p))
  }

  function TxidCall(h: Blake2b, c: Commitments, d: TxData): Call {
    var p := PartsOf(h, c, d);
    RootCall(h, c, d.version, d.branch, Digest(h, TransparentCall(p.transparent)), p)
  }

  /** The identifier of a transaction from v5 on. */
  function Txid(h: Blake2b, c: Commitments, d: TxData): Bytes32 {
    Digest(h, TxidCall(h, c, d))
  }

  //////////////////////////////////////////////////////////////////////////////
  // The authorizing commitment's tree
  //////////////////////////////////////////////////////////////////////////////

  function EncScriptSig(i: TxIn): Bytes { EncBlob(i.scriptSig) }

  function AuthScriptsCall(b: Option<TransparentBundle>): Call {
    Call(AUTH_SCRIPTS, Concat(Vin(b), EncScriptSig))
  }

  /** From v6 on the anchor is authorizing data. */
  function AuthAnchor(v: TxVersion, b: SaplingBundle): Bytes {
    if !CommitsToAnchor(v) && b.spends != [] then b.spends[0].anchor else []
  }

  function AuthSaplingCall(v: TxVersion, b: Option<SaplingBundle>): Call {
    Call(if CommitsToAnchor(v) then AUTH_SAPLING else AUTH_SAPLING_V6,
         match b
         case None => []
         case Some(b) => EncWitnesses(WitnessesOf(b)) + AuthAnchor(v, b))
  }

  function AuthCrosslinkCall(a: Option<StakingAction>): Call {
    Call(CROSSLINK, if a.None? then [] else EncStaking(a))
  }

  function AuthCall(h: Blake2b, c: Commitments, d: TxData): Call {
    Call(AUTH_PREFIX + LE(BranchToU32(d.branch), 4),
         Digest(h, AuthScriptsCall(d.transparent)) + Digest(h, AuthSaplingCall(d.version, d.sapling))
         + OrchardAuth(c, d.version, d.orchard) + Digest(h, AuthCrosslinkCall(d.staking))
         + (if HasIronwood(d.version) then IronwoodAuth(c, d.ironwood) else []))
  }

  function AuthCommitment(h: Blake2b, c: Commitments, d: TxData): Bytes32 {
    Digest(h, AuthCall(h, c, d))
  }

  //////////////////////////////////////////////////////////////////////////////
  // Hasher states
  //////////////////////////////////////////////////////////////////////////////

  /** A personalized hash state that bytes are fed into. */
  class Hasher {
    const personal: Bytes
    var input: Bytes

    constructor (personal: Bytes)
      ensures this.personal == personal && input == []
    {
      this.personal := personal;
      input := [];
    }

    method WriteAll(b: Bytes)
      modifies this
      ensures input == old(input) + b
    {
      input := input + b;
    }

    method Finalize(h: Blake2b) returns (d: Bytes32)
      ensures d == Digest(h, Call(personal, input))
    {
      d := h(personal, input);
    }
  }

  method HashHeader(h: Blake2b, d: TxData) returns (digest: Bytes32)
    ensures digest == Digest(h, HeaderCall(d))
  {
    hide LE;
    var st := new Hasher(HEADERS);
    st.WriteAll(LE(HeaderWord(d.version), 4));
    st.WriteAll(LE(VersionGroupId(d.version), 4));
    st.WriteAll(LE(BranchToU32(d.branch), 4));
    st.WriteAll(LE(d.lockTime, 4));
    st.WriteAll(LE(d.expiry, 4));
    assert st.input == HeaderCall(d).input;
    digest := st.Finalize(h);
  }

  method HashPrevouts(h: Blake2b, vin: seq<TxIn>) returns (digest: Bytes32)
    ensures digest == Digest(h, PrevoutsCall(vin))
  {
    hide LE;
    var st := new Hasher(PREVOUTS);
    for i := 0 to |vin|
      invariant st.input == [] + Concat(vin[..i], EncPrevout)
    {
      st.WriteAll(vin[i].prevout.hash);
      st.WriteAll(LE(vin[i].prevout.n, 4));
      Regroup2(Concat(vin[..i], EncPrevout), vin[i].prevout.hash, LE(vin[i].prevout.n, 4));
      Extend(st.input, [], vin, i, EncPrevout);
    }
    assert vin[..|vin|] == vin;
    assert st.input == PrevoutsCall(vin).input;
    digest := st.Finalize(h);
  }

  method HashSequences(h: Blake2b, vin: seq<TxIn>) returns (digest: Bytes32)
    ensures digest == Digest(h, SequencesCall(vin))
  {
    hide LE;
    var st := new Hasher(SEQUENCES);
    for i := 0 to |vin|
      invariant st.input == [] + Concat(vin[..i], EncSequence)
    {
      st.WriteAll(LE(vin[i].sequence, 4));
      Extend(st.input, [], vin, i, EncSequence);
    }
    assert vin[..|vin|] == vin;
    assert st.input == SequencesCall(vin).input;
    digest := st.Finalize(h);
  }

  method HashOutputs(h: Blake2b, vout: seq<TxOut>) returns (digest: Bytes32)
    ensures digest == Digest(h, OutputsCall(vout))
  {
    hide LE, EncBlob;
    var st := new Hasher(OUTPUTS);
    for i := 0 to |vout|
      invariant st.input == [] + Concat(vout[..i], EncTxOut)
    {
      st.WriteAll(LE(vout[i].value, 8));
      st.WriteAll(EncBlob(vout[i].script));
      Regroup2(Concat(vout[..i], EncTxOut), LE(vout[i].value, 8), EncBlob(vout[i].script));
      Extend(st.input, [], vout, i, EncTxOut);
    }
    assert vout[..|vout|] == vout;
    assert st.input == OutputsCall(vout).input;
    digest := st.Finalize(h);
  }

  /** Feeds the compact and the noncompact hash in one pass over the spends. */
  method FeedSpends(ch: Hasher, nh: Hasher, v: TxVersion, spends: seq<Spend>)
    requires ch != nh
    modifies ch, nh
    ensures ch.input == old(ch.input) + Concat(spends, EncNullifier)
    ensures nh.input == old(nh.input) + Concat(spends, SpendEncoder(v))
  {
    for i := 0 to |spends|
      invariant ch.input == old(ch.input) + Concat(spends[..i], EncNullifier)
      invariant nh.input == old(nh.input) + Concat(spends[..i], SpendEncoder(v))
    {
      var s := spends[i];
      ghost var before := nh.input;
      ch.WriteAll(s.nullifier);
      nh.WriteAll(s.cv);
      if !v.V6? {
        nh.WriteAll(s.anchor);
        Regroup3(before, s.cv, s.anchor, s.rk);
        Regroup2(s.cv, s.anchor, s.rk);
      } else {
        Regroup2(before, s.cv, s.rk);
      }
      nh.WriteAll(s.rk);
      Extend(ch.input, old(ch.input), spends, i, EncNullifier);
      Extend(nh.input, old(nh.input), spends, i, SpendEncoder(v));
    }
    assert spends[..|spends|] == spends;
  }

  method HashSaplingSpends(h: Blake2b, v: TxVersion, spends: seq<Spend>) returns (digest: Bytes32)
    ensures digest == Digest(h, SpendsCall(h, v, spends))
  {
    hide Concat;
    var st := new Hasher(SPENDS);
    if spends != [] {
      var ch := new Hasher(SPENDS_COMPACT);
      var nh := new Hasher(if v.V6? then SPENDS_NONCOMPACT_V6 else SPENDS_NONCOMPACT);
      FeedSpends(ch, nh, v, spends);
      assert [] + Concat(spends, EncNullifier) == Concat(spends, EncNullifier);
      assert [] + Concat(spends, SpendEncoder(v)) == Concat(spends, SpendEncoder(v));
      var compact := ch.Finalize(h);
      st.WriteAll(compact);
      var noncompact := nh.Finalize(h);
      st.WriteAll(noncompact);
      assert st.input == SpendsCall(h, v, spends).input;
    }
    digest := st.Finalize(h);
  }

  /** Feeds the compact, memo and noncompact hashes in one pass over the outputs. */
  method FeedOutputs(ch: Hasher, mh: Hasher, nh: Hasher, outputs: seq<Output>)
    requires ch != mh && ch != nh && mh != nh
    modifies ch, mh, nh
    ensures ch.input == old(ch.input) + Concat(outputs, EncOutputCompact)
    ensures mh.input == old(mh.input) + Concat(outputs, EncOutputMemo)
    ensures nh.input == old(nh.input) + Concat(outputs, EncOutputNoncompact)
  {
    for i := 0 to |outputs|
      invariant ch.input == old(ch.input) + Concat(outputs[..i], EncOutputCompact)
      invariant mh.input == old(mh.input) + Concat(outputs[..i], EncOutputMemo)
      invariant nh.input == old(nh.input) + Concat(outputs[..i], EncOutputNoncompact)
    {
      var o := outputs[i];
      ghost var beforeC, beforeN := ch.input, nh.input;
      ch.WriteAll(o.cmu);
      ch.WriteAll(o.epk);
      ch.WriteAll(o.enc[..52]);
      Regroup3(beforeC, o.cmu, o.epk, o.enc[..52]);
      Regroup2(o.cmu, o.epk, o.enc[..52]);
      mh.WriteAll(o.enc[52..564]);
      nh.WriteAll(o.cv);
      nh.WriteAll(o.enc[564..]);
      nh.WriteAll(o.out);
      Regroup3(beforeN, o.cv, o.enc[564..], o.out);
      Regroup2(o.cv, o.enc[564..], o.out);
      Extend(ch.input, old(ch.input), outputs, i, EncOutputCompact);
      Extend(mh.input, old(mh.input), outputs, i, EncOutputMemo);
      Extend(nh.input, old(nh.input), outputs, i, EncOutputNoncompact);
    }
    assert outputs[..|outputs|] == outputs;
  }

  method OutputDigests(h: Blake2b, outputs: seq<Output>) returns (compact: Bytes32, memos: Bytes32, noncompact: Bytes32)
    ensures compact == Digest(h, OutputsCompactCall(outputs))
    ensures memos == Digest(h, OutputsMemosCall(outputs))
    ensures noncompact == Digest(h, OutputsNoncompactCall(outputs))
  {
    hide Concat;
    var ch := new Hasher(OUTPUTS_COMPACT);
    var mh := new Hasher(OUTPUTS_MEMOS);
    var nh := new Hasher(OUTPUTS_NONCOMPACT);
    FeedOutputs(ch, mh, nh, outputs);
    assert [] + Concat(outputs, EncOutputCompact) == Concat(outputs, EncOutputCompact);
    assert [] + Concat(outputs, EncOutputMemo) == Concat(outputs, EncOutputMemo);
    assert [] + Concat(outputs, EncOutputNoncompact) == Concat(outputs, EncOutputNoncompact);
    compact := ch.Finalize(h);
    memos := mh.Finalize(h);
    noncompact := nh.Finalize(h);
  }

  method HashSaplingOutputs(h: Blake2b, outputs: seq<Output>) returns (digest: Bytes32)
    ensures digest == Digest(h, SaplingOutputsCall(h, outputs))
  {
    hide OutputsCompactCall, OutputsMemosCall, OutputsNoncompactCall;
    var st := new Hasher(SAPLING_OUTPUTS);
    if outputs != [] {
      var compact, memos, noncompact := OutputDigests(h, outputs);
      st.WriteAll(compact);
      st.WriteAll(memos);
      st.WriteAll(noncompact);
      assert st.input == SaplingOutputsCall(h, outputs).input;
    }
    digest := st.Finalize(h);
  }

  method HashSapling(h: Blake2b, v: TxVersion, b: SaplingBundle) returns (digest: Bytes32)
    ensures digest == Digest(h, SaplingCall(h, v, Some(b)))
  {
    hide SpendsCall, SaplingOutputsCall, EncBalance;
    var st := new Hasher(SAPLING);
    if !(b.spends == [] && b.outputs == []) {
      var spends := HashSaplingSpends(h, v, b.spends);
      st.WriteAll(spends);
      var outputs := HashSaplingOutputs(h, b.outputs);
      st.WriteAll(outputs);
      st.WriteAll(EncBalance(b.valueBalance));
    }
    assert st.input == SaplingCall(h, v, Some(b)).input;
    digest := st.Finalize(h);
  }

  method HashTransparent(h: Blake2b, p: Option<TransparentDigests>) returns (digest: Bytes32)
    ensures digest == Digest(h, TransparentCall(p))
  {
    var st := new Hasher(TRANSPARENT);
    if p.Some? {
      st.WriteAll(p.value.prevouts);
      st.WriteAll(p.value.sequences);
      st.WriteAll(p.value.outputs);
    }
    assert st.input == TransparentCall(p).input;
    digest := st.Finalize(h);
  }

  /** `TxIdDigester`. */
  method DigestTx(h: Blake2b, c: Commitments, d: TxData) returns (p: TxidParts)
    ensures p == PartsOf(h, c, d)
  {
    hide HeaderCall, PrevoutsCall, SequencesCall, OutputsCall, SaplingCall;
    var header := HashHeader(h, d);
    var transparent := None;
    if d.transparent.Some? {
      var prevouts := HashPrevouts(h, d.transparent.value.vin);
      var sequences := HashSequences(h, d.transparent.value.vin);
      var outputs := HashOutputs(h, d.transparent.value.vout);
      transparent := Some(TransparentDigests(prevouts, sequences, outputs));
    }
    var sapling := None;
    if d.sapling.Some? {
      var digest := HashSapling(h, d.version, d.sapling.value);
      sapling := Some(digest);
    }
    var orchard := if d.orchard.None? then None else Some(OrchardTxid(c, d.version, d.orchard));
    var ironwood := if d.ironwood.None? then None else Some(IronwoodTxid(c, d.ironwood));
    var crosslink := None;
    if d.staking.Some? {
      var st := new Hasher(CROSSLINK);
      st.WriteAll(EncStaking(d.staking));
      assert st.input == EncStaking(d.staking);
      var digest := st.Finalize(h);
      crosslink := Some(digest);
    }
    p := TxidParts(header, transparent, sapling, orchard, ironwood, crosslink);
  }

  /** `to_hash` and `to_hash_v6`. */
  method ToHash(h: Blake2b, c: Commitments, v: TxVersion, branch: BranchId, transparent: Bytes32, p: TxidParts)
    returns (digest: Bytes32)
    ensures digest == Digest(h, RootCall(h, c, v, branch, transparent, p))
  {
    hide LE;
    var st := new Hasher(TX_PREFIX + LE(BranchToU32(branch), 4));
    st.WriteAll(p.header);
    st.WriteAll(transparent);
    st.WriteAll(Or(p.sapling, Digest(h, Call(SAPLING, []))));
    st.WriteAll(Or(p.orchard, OrchardTxid(c, v, None)));
    if HasIronwood(v) {
      st.WriteAll(Or(p.ironwood, IronwoodTxid(c, None)));
    } else if p.crosslink.Some? {
      st.WriteAll(p.crosslink.value);
    }
    assert st.input == RootCall(h, c, v, branch, transparent, p).input;
    digest := st.Finalize(h);
  }

  method ToTxid(h: Blake2b, c: Commitments, d: TxData) returns (txid: Bytes32)
    ensures txid == Txid(h, c, d)
  {
    hide RootCall, PartsOf;
    var p := DigestTx(h, c, d);
    var transparent := HashTransparent(h, p.transparent);
    txid := ToHash(h, c, d.version, d.branch, transparent, p);
  }

  method HashScripts(h: Blake2b, b: Option<TransparentBundle>) returns (digest: Bytes32)
    ensures digest == Digest(h, AuthScriptsCall(b))
  {
    hide EncBlob;
    var st := new Hasher(AUTH_SCRIPTS);
    if b.Some? {
      var vin := b.value.vin;
      for i := 0 to |vin|
        invariant st.input == [] + Concat(vin[..i], EncScriptSig)
      {
        st.WriteAll(EncBlob(vin[i].scriptSig));
        Extend(st.input, [], vin, i, EncScriptSig);
      }
      assert vin[..|vin|] == vin;
    }
    assert st.input == AuthScriptsCall(b).input;
    digest := st.Finalize(h);
  }

  method FeedSpendProofs(st: Hasher, spends: seq<Spend>)
    modifies st
    ensures st.input == old(st.input) + Concat(Map(spends, ProofOf), RawProof)
  {
    ghost var ps := Map(spends, ProofOf);
    for i := 0 to |spends|
      invariant st.input == old(st.input) + Concat(ps[..i], RawProof)
    {
      st.WriteAll(spends[i].proof);
      Extend(st.input, old(st.input), ps, i, RawProof);
    }
    assert ps[..|ps|] == ps;
  }

  method FeedSpendSigs(st: Hasher, spends: seq<Spend>)
    modifies st
    ensures st.input == old(st.input) + Concat(Map(spends, SigOf), RawSig)
  {
    ghost var ps := Map(spends, SigOf);
    for i := 0 to |spends|
      invariant st.input == old(st.input) + Concat(ps[..i], RawSig)
    {
      st.WriteAll(spends[i].sig);
      Extend(st.input, old(st.input), ps, i, RawSig);
    }
    assert ps[..|ps|] == ps;
  }

  method FeedOutputProofs(st: Hasher, outputs: seq<Output>)
    modifies st
    ensures st.input == old(st.input) + Concat(Map(outputs, OutputProofOf), RawProof)
  {
    ghost var ps := Map(outputs, OutputProofOf);
    for i := 0 to |outputs|
      invariant st.input == old(st.input) + Concat(ps[..i], RawProof)
    {
      st.WriteAll(outputs[i].proof);
      Extend(st.input, old(st.input), ps, i, RawProof);
    }
    assert ps[..|ps|] == ps;
  }

  method FeedWitnesses(st: Hasher, b: SaplingBundle)
    modifies st
    ensures st.input == old(st.input) + EncWitnesses(WitnessesOf(b))
  {
    hide Map, Concat;
    FeedSpendProofs(st, b.spends);
    FeedSpendSigs(st, b.spends);
    FeedOutputProofs(st, b.outputs);
    st.WriteAll(b.bindingSig);
    ghost var w := WitnessesOf(b);
    ghost var proofs, sigs, outputProofs :=
      Concat(w.spendProofs, RawProof), Concat(w.spendSigs, RawSig), Concat(w.outputProofs, RawProof);
    Regroup4(old(st.input), proofs, sigs, outputProofs, b.bindingSig);
    Regroup3(proofs, sigs, outputProofs, b.bindingSig);
  }

  method HashSaplingAuth(h: Blake2b, v: TxVersion, b: Option<SaplingBundle>) returns (digest: Bytes32)
    ensures digest == Digest(h, AuthSaplingCall(v, b))
  {
    hide EncWitnesses, WitnessesOf;
    var st := new Hasher(if v.V6? then AUTH_SAPLING_V6 else AUTH_SAPLING);
    if b.Some? {
      FeedWitnesses(st, b.value);
      ghost var witnesses := EncWitnesses(WitnessesOf(b.value));
      assert [] + witnesses == witnesses;
      if v.V6? && b.value.spends != [] {
        st.WriteAll(b.value.spends[0].anchor);
      }
      assert st.input == witnesses + AuthAnchor(v, b.value);
    }
    digest := st.Finalize(h);
  }

  method HashStaking(h: Blake2b, a: Option<StakingAction>) returns (digest: Bytes32)
    ensures digest == Digest(h, AuthCrosslinkCall(a))
  {
    hide EncStaking;
    var st := new Hasher(CROSSLINK);
    if a.Some? {
      st.WriteAll(EncStaking(a));
    }
    assert st.input == AuthCrosslinkCall(a).input;
    digest := st.Finalize(h);
  }

  /** `BlockTxCommitmentDigester`. */
  method ToAuthCommitment(h: Blake2b, c: Commitments, d: TxData) returns (auth: Bytes32)
    ensures auth == AuthCommitment(h, c, d)
  {
    hide LE, AuthScriptsCall, AuthSaplingCall, AuthCrosslinkCall;
    var st := new Hasher(AUTH_PREFIX + LE(BranchToU32(d.branch), 4));
    var scripts := HashScripts(h, d.transparent);
    st.WriteAll(scripts);
    var sapling := HashSaplingAuth(h, d.version, d.sapling);
    st.WriteAll(sapling);
    st.WriteAll(OrchardAuth(c, d.version, d.orchard));
    var crosslink := HashStaking(h, d.staking);
    st.WriteAll(crosslink);
    if HasIronwood(d.version) {
      st.WriteAll(IronwoodAuth(c, d.ironwood));
    }
    assert st.input == AuthCall(h, c, d).input;
    auth := st.Finalize(h);
  }
}
