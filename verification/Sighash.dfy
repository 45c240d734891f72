/** Signature hashes from v5 on (ZIP 244, ZIP 229): what each of them covers, exactly. */
module Sighash {
  import opened ByteStrings
  import opened Io
  import opened Orchard
  import opened Sapling
  import opened Schedules
  import opened Transactions
  import opened Transparent
  import opened TxBinding
  import opened TxDigests
  import opened TxVersions
  import opened Values

  const AMOUNTS: Bytes := Ascii("ZTxTrAmountsHash")
  const SCRIPTS: Bytes := Ascii("ZTxTrScriptsHash")
  const TX_IN: Bytes := Ascii("Zcash___TxInHash")

  const SIGHASH_ALL: u8 := 1
  const SIGHASH_NONE: u8 := 2
  const SIGHASH_SINGLE: u8 := 3
  const SIGHASH_ANYONECANPAY: u8 := 0x80

  /** The values and scripts of the coins being spent. */
  datatype Coins = Coins(amounts: seq<Zatoshis>, scripts: seq<Bytes>)

  /** What is being signed: a shielded part, or the transparent input at `index`. */
  datatype Signable =
    | Shielded
    | Input(hashType: u8, index: nat, script: Bytes, value: Zatoshis)

  function HashTypeOf(s: Signable): u8 {
    match s
    case Shielded => SIGHASH_ALL
    case Input(t, _, _, _) => t
  }

  predicate AnyoneCanPay(t: u8) {
    t >= SIGHASH_ANYONECANPAY
  }

  /** The low five bits. */
  function Mode(t: u8): u8 {
    t % 0x20
  }

  /** No transparent inputs, or only the coinbase's. */
  predicate NothingToSign(b: Option<TransparentBundle>) {
    b.None? || IsCoinbase(b.value) || b.value.vin == []
  }

  /** A transparent input to sign is one that exists. */
  predicate Signs(b: Option<TransparentBundle>, s: Signable) {
    NothingToSign(b) || s.Shielded? || s.index < |b.value.vin|
  }

  //////////////////////////////////////////////////////////////////////////////
  // What is hashed
  //////////////////////////////////////////////////////////////////////////////

  function SignedInputs(b: TransparentBundle, s: Signable): seq<TxIn> {
    if AnyoneCanPay(HashTypeOf(s)) then [] else b.vin
  }

  function SignedCoins(coins: Coins, s: Signable): Coins {
    if AnyoneCanPay(HashTypeOf(s)) then Coins([], []) else coins
  }

  function SignedOutputs(b: TransparentBundle, s: Signable): seq<TxOut> {
    if s.Shielded? then b.vout
    else if Mode(s.hashType) == SIGHASH_SINGLE then (if s.index < |b.vout| then [b.vout[s.index]] else [])
    else if Mode(s.hashType) == SIGHASH_NONE then []
    else b.vout
  }

  function EncAmount(z: Zatoshis): Bytes { LE(z, 8) }

  function AmountsCall(coins: Coins): Call { Call(AMOUNTS, Concat(coins.amounts, EncAmount)) }

  function ScriptsCall(coins: Coins): Call { Call(SCRIPTS, Concat(coins.scripts, EncBlob)) }

  function TxInCall(b: TransparentBundle, s: Signable): Call
    requires s.Shielded? || s.index < |b.vin|
  {
    Call(TX_IN, if s.Shielded? then [] else
      EncOutPoint(b.vin[s.index].prevout) + LE(s.value, 8) + EncBlob(s.script) + LE(b.vin[s.index].sequence, 4))
  }

  /** The six digests under a transparent signature digest. */
  function SigBody(h: Blake2b, b: TransparentBundle, coins: Coins, s: Signable): Bytes
    requires s.Shielded? || s.index < |b.vin|
  {
    Digest(h, PrevoutsCall(SignedInputs(b, s))) + Digest(h, AmountsCall(SignedCoins(coins, s)))
    + Digest(h, ScriptsCall(SignedCoins(coins, s))) + Digest(h, SequencesCall(SignedInputs(b, s)))
    + (Digest(h, OutputsCall(SignedOutputs(b, s))) + Digest(h, TxInCall(b, s)))
  }

  function TransparentSigCall(h: Blake2b, b: Option<TransparentBundle>, coins: Coins, s: Signable): Call
    requires Signs(b, s)
  {
    if NothingToSign(b) then TransparentCall(if b.None? then None else Some(TransparentParts(h, b.value)))
    else Call(TRANSPARENT, LE(HashTypeOf(s), 1) + SigBody(h, b.value, coins, s))
  }

  /** v5 leaves the staking digest out, VCrosslink passes it on, v6 has the Ironwood digest instead. */
  function SigParts(h: Blake2b, c: Commitments, d: TxData): TxidParts {
    var p := PartsOf(h, c, d);
    if d.version.V5? then p.(crosslink := None) else p
  }

  function SighashCall(h: Blake2b, c: Commitments, d: TxData, coins: Coins, s: Signable): Call
    requires Signs(d.transparent, s)
  {
    RootCall(h, c, d.version, d.branch, Digest(h, TransparentSigCall(h, d.transparent, coins, s)), SigParts(h, c, d))
  }

  function Sighash(h: Blake2b, c: Commitments, d: TxData, coins: Coins, s: Signable): Bytes32
    requires Signs(d.transparent, s)
  {
    Digest(h, SighashCall(h, c, d, coins, s))
  }

  //////////////////////////////////////////////////////////////////////////////
  // What is covered
  //////////////////////////////////////////////////////////////////////////////

  /** The signed input itself, or that there is none. */
  predicate SameSigned(a: TransparentBundle, s: Signable, b: TransparentBundle, t: Signable)
    requires (s.Shielded? || s.index < |a.vin|) && (t.Shielded? || t.index < |b.vin|)
  {
    && s.Shielded? == t.Shielded?
    && (s.Input? ==>
          && a.vin[s.index].prevout == b.vin[t.index].prevout && s.value == t.value && s.script == t.script
          && a.vin[s.index].sequence == b.vin[t.index].sequence)
  }

  /** The output at the place of the signed input, if there is one. */
  function OwnOutput(b: TransparentBundle, s: Signable): Option<TxOut>
    requires s.Input?
  {
    if s.index < |b.vout| then Some(b.vout[s.index]) else None
  }

  /**
   * What a hash type asks to be signed: below 0x80 all inputs and coins, else only the signed one;
   * under 3 (in the low five bits) the one output at the input's place, under 2 none, else all.
   */
  predicate AskedAlike(a: TransparentBundle, ka: Coins, s: Signable, b: TransparentBundle, kb: Coins, t: Signable)
    requires (s.Shielded? || s.index < |a.vin|) && (t.Shielded? || t.index < |b.vin|)
  {
    && SameSigned(a, s, b, t)
    && (s.Input? ==> s.hashType == t.hashType)
    && (s.Shielded? || s.hashType < 0x80 ==> SameInputEffects(a.vin, b.vin) && ka == kb)
    && (s.Shielded? || (s.hashType % 32 != 2 && s.hashType % 32 != 3) ==> a.vout == b.vout)
    && (s.Input? && s.hashType % 32 == 3 ==> OwnOutput(a, s) == OwnOutput(b, t))
  }

  /** The same in terms of the lists that are hashed. */
  predicate SelectedAlike(a: TransparentBundle, ka: Coins, s: Signable, b: TransparentBundle, kb: Coins, t: Signable)
    requires (s.Shielded? || s.index < |a.vin|) && (t.Shielded? || t.index < |b.vin|)
  {
    && HashTypeOf(s) == HashTypeOf(t)
    && SameInputEffects(SignedInputs(a, s), SignedInputs(b, t))
    && SignedCoins(ka, s) == SignedCoins(kb, t)
    && SignedOutputs(a, s) == SignedOutputs(b, t)
    && SameSigned(a, s, b, t)
  }

  /** The lists that are hashed are the ones that the hash type asks for. */
  lemma SelectionIsAsked(a: TransparentBundle, ka: Coins, s: Signable, b: TransparentBundle, kb: Coins, t: Signable)
    requires (s.Shielded? || s.index < |a.vin|) && (t.Shielded? || t.index < |b.vin|)
    ensures SelectedAlike(a, ka, s, b, kb, t) <==> AskedAlike(a, ka, s, b, kb, t)
  {
    if s.Input? && t.Input? && s.index < |a.vout| && t.index < |b.vout| {
      assert [a.vout[s.index]] == [b.vout[t.index]] <==> a.vout[s.index] == b.vout[t.index] by {
        assert [a.vout[s.index]][0] == a.vout[s.index] && [b.vout[t.index]][0] == b.vout[t.index];
      }
    }
  }

  /** Two signing situations that a transparent signature digest is meant to tell apart no further. */
  predicate SignedAlike(a: Option<TransparentBundle>, ka: Coins, s: Signable,
                        b: Option<TransparentBundle>, kb: Coins, t: Signable)
    requires Signs(a, s) && Signs(b, t)
  {
    if NothingToSign(a) || NothingToSign(b) then
      NothingToSign(a) && NothingToSign(b) && SameTransparentEffects(a, b)
    else AskedAlike(a.value, ka, s, b.value, kb, t)
  }

  predicate GoodSigning(k: Coins, s: Signable) {
    GoodScripts(k.scripts) && (s.Input? ==> |s.script| <= MAX_COMPACT_SIZE)
  }

  ghost function SigCalls(h: Blake2b, b: Option<TransparentBundle>, coins: Coins, s: Signable): set<Call>
    requires Signs(b, s)
  {
    if NothingToSign(b) then TransparentCalls(h, b)
    else
      {TransparentSigCall(h, b, coins, s), PrevoutsCall(SignedInputs(b.value, s)), AmountsCall(SignedCoins(coins, s)),
       ScriptsCall(SignedCoins(coins, s)), SequencesCall(SignedInputs(b.value, s)),
       OutputsCall(SignedOutputs(b.value, s)), TxInCall(b.value, s)}
  }

  lemma SameInputsHashAlike(a: seq<TxIn>, b: seq<TxIn>)
    requires SameInputEffects(a, b)
    ensures PrevoutsCall(a) == PrevoutsCall(b) && SequencesCall(a) == SequencesCall(b)
  {
    ConcatAlike(a, EncPrevout, b, EncPrevout);
    ConcatAlike(a, EncSequence, b, EncSequence);
  }

  /** What the digest does not cover does not change it. */
  lemma SignedAlikeHashesAlike(h: Blake2b, a: Option<TransparentBundle>, ka: Coins, s: Signable,
                               b: Option<TransparentBundle>, kb: Coins, t: Signable)
    requires Signs(a, s) && Signs(b, t) && SignedAlike(a, ka, s, b, kb, t)
    ensures TransparentSigCall(h, a, ka, s) == TransparentSigCall(h, b, kb, t)
  {
    hide PrevoutsCall, SequencesCall, OutputsCall, LE, EncOutPoint, EncBlob, AmountsCall, ScriptsCall, IsCoinbase;
    if NothingToSign(a) {
      if a.Some? {
        SameInputsHashAlike(a.value.vin, b.value.vin);
      }
    } else {
      SelectionIsAsked(a.value, ka, s, b.value, kb, t);
      hide AskedAlike;
      SameInputsHashAlike(SignedInputs(a.value, s), SignedInputs(b.value, t));
      hide SignedInputs, SignedCoins, SignedOutputs;
      assert TxInCall(a.value, s) == TxInCall(b.value, t);
    }
  }

  lemma AmountsBind(a: seq<Zatoshis>, b: seq<Zatoshis>)
    requires Concat(a, EncAmount) == Concat(b, EncAmount)
    ensures a == b
  {
    ConcatFixedInjective(a, b, EncAmount, 8);
    Pow256Table();
    forall i | 0 <= i < |a| ensures a[i] == b[i] {
      assert EncAmount(a[i]) == EncAmount(b[i]);
      LEInjective(8, a[i], b[i]);
    }
  }

  lemma TxInBinds(a: TransparentBundle, s: Signable, b: TransparentBundle, t: Signable)
    requires (s.Shielded? || s.index < |a.vin|) && (t.Shielded? || t.index < |b.vin|)
    requires (s.Input? ==> |s.script| <= MAX_COMPACT_SIZE) && (t.Input? ==> |t.script| <= MAX_COMPACT_SIZE)
    requires TxInCall(a, s) == TxInCall(b, t)
    ensures SameSigned(a, s, b, t)
  {
    hide LE, EncBlob, ParseBlob;
    if s.Input? && t.Input? {
      var x, y := a.vin[s.index], b.vin[t.index];
      Regroup3(EncOutPoint(x.prevout), LE(s.value, 8), EncBlob(s.script), LE(x.sequence, 4));
      Regroup3(EncOutPoint(y.prevout), LE(t.value, 8), EncBlob(t.script), LE(y.sequence, 4));
      Unjoin(EncOutPoint(x.prevout), LE(s.value, 8) + (EncBlob(s.script) + LE(x.sequence, 4)),
             EncOutPoint(y.prevout), LE(t.value, 8) + (EncBlob(t.script) + LE(y.sequence, 4)));
      Unjoin(LE(s.value, 8), EncBlob(s.script) + LE(x.sequence, 4),
             LE(t.value, 8), EncBlob(t.script) + LE(y.sequence, 4));
      BlobRoundTrip(s.script, LE(x.sequence, 4));
      BlobRoundTrip(t.script, LE(y.sequence, 4));
      Unjoin(x.prevout.hash, LE(x.prevout.n, 4), y.prevout.hash, LE(y.prevout.n, 4));
      Pow256Table();
      LEInjective(4, x.prevout.n, y.prevout.n);
      LEInjective(4, x.sequence, y.sequence);
      LEInjective(8, s.value, t.value);
    }
  }

  lemma SigBodyBinds(h: Blake2b, a: TransparentBundle, ka: Coins, s: Signable,
                     b: TransparentBundle, kb: Coins, t: Signable)
    requires (s.Shielded? || s.index < |a.vin|) && (t.Shielded? || t.index < |b.vin|)
    requires SigBody(h, a, ka, s) == SigBody(h, b, kb, t)
    ensures Digest(h, PrevoutsCall(SignedInputs(a, s))) == Digest(h, PrevoutsCall(SignedInputs(b, t)))
    ensures Digest(h, AmountsCall(SignedCoins(ka, s))) == Digest(h, AmountsCall(SignedCoins(kb, t)))
    ensures Digest(h, ScriptsCall(SignedCoins(ka, s))) == Digest(h, ScriptsCall(SignedCoins(kb, t)))
    ensures Digest(h, SequencesCall(SignedInputs(a, s))) == Digest(h, SequencesCall(SignedInputs(b, t)))
    ensures Digest(h, OutputsCall(SignedOutputs(a, s))) == Digest(h, OutputsCall(SignedOutputs(b, t)))
    ensures Digest(h, TxInCall(a, s)) == Digest(h, TxInCall(b, t))
  {
    hide PrevoutsCall, AmountsCall, ScriptsCall, SequencesCall, OutputsCall, TxInCall, SignedInputs, SignedCoins;
    hide SignedOutputs;
    var lastA: Bytes := Digest(h, OutputsCall(SignedOutputs(a, s)));
    var lastB: Bytes := Digest(h, OutputsCall(SignedOutputs(b, t)));
    Unjoin5(Digest(h, PrevoutsCall(SignedInputs(a, s))), Digest(h, AmountsCall(SignedCoins(ka, s))),
            Digest(h, ScriptsCall(SignedCoins(ka, s))), Digest(h, SequencesCall(SignedInputs(a, s))),
            lastA + Digest(h, TxInCall(a, s)),
            Digest(h, PrevoutsCall(SignedInputs(b, t))), Digest(h, AmountsCall(SignedCoins(kb, t))),
            Digest(h, ScriptsCall(SignedCoins(kb, t))), Digest(h, SequencesCall(SignedInputs(b, t))),
            lastB + Digest(h, TxInCall(b, t)));
    Unjoin(lastA, Digest(h, TxInCall(a, s)), lastB, Digest(h, TxInCall(b, t)));
  }

  /** A transparent signature digest covers exactly what is signed alike, or collides. */
  lemma TransparentSigBinds(h: Blake2b, xs: set<Call>, ys: set<Call>,
                            a: Option<TransparentBundle>, ka: Coins, s: Signable,
                            b: Option<TransparentBundle>, kb: Coins, t: Signable)
    requires Signs(a, s) && Signs(b, t) && GoodTransparent(a) && GoodTransparent(b)
    requires GoodSigning(ka, s) && GoodSigning(kb, t)
    requires !Collision(h, xs, ys) && SigCalls(h, a, ka, s) <= xs && SigCalls(h, b, kb, t) <= ys
    requires Digest(h, TransparentSigCall(h, a, ka, s)) == Digest(h, TransparentSigCall(h, b, kb, t))
    ensures SignedAlike(a, ka, s, b, kb, t)
  {
    Same(h, xs, ys, TransparentSigCall(h, a, ka, s), TransparentSigCall(h, b, kb, t));
    if NothingToSign(a) && NothingToSign(b) {
      hide GoodTransparent, SameTransparentEffects, IsCoinbase, TransparentCall;
      TransparentBinds(h, xs, ys, a, b);
    } else if !NothingToSign(a) && !NothingToSign(b) {
      SomethingSignedBinds(h, xs, ys, a.value, ka, s, b.value, kb, t);
    } else {
      SigLength(h, a, ka, s);
      SigLength(h, b, kb, t);
    }
  }

  /** The two shapes of the digest's input have different lengths. */
  lemma SigLength(h: Blake2b, a: Option<TransparentBundle>, ka: Coins, s: Signable)
    requires Signs(a, s)
    ensures |TransparentSigCall(h, a, ka, s).input| == if a.None? then 0 else if NothingToSign(a) then 96 else 193
  {
    hide PrevoutsCall, AmountsCall, ScriptsCall, SequencesCall, OutputsCall, TxInCall, SignedInputs, SignedCoins;
    hide SignedOutputs;
  }

  lemma SomethingSignedBinds(h: Blake2b, xs: set<Call>, ys: set<Call>, a: TransparentBundle, ka: Coins, s: Signable,
                             b: TransparentBundle, kb: Coins, t: Signable)
    requires (s.Shielded? || s.index < |a.vin|) && (t.Shielded? || t.index < |b.vin|)
    requires !NothingToSign(Some(a)) && !NothingToSign(Some(b))
    requires GoodTransparent(Some(a)) && GoodTransparent(Some(b)) && GoodSigning(ka, s) && GoodSigning(kb, t)
    requires !Collision(h, xs, ys) && SigCalls(h, Some(a), ka, s) <= xs && SigCalls(h, Some(b), kb, t) <= ys
    requires LE(HashTypeOf(s), 1) + SigBody(h, a, ka, s) == LE(HashTypeOf(t), 1) + SigBody(h, b, kb, t)
    ensures SignedAlike(Some(a), ka, s, Some(b), kb, t)
  {
    Unjoin(LE(HashTypeOf(s), 1), SigBody(h, a, ka, s), LE(HashTypeOf(t), 1), SigBody(h, b, kb, t));
    SigBodyBinds(h, a, ka, s, b, kb, t);
    SigCallsSame(h, xs, ys, a, ka, s, b, kb, t);
    GoodSignedOutputs(a, s);
    GoodSignedOutputs(b, t);
    SelectionIsAsked(a, ka, s, b, kb, t);
    hide SigBody, SigCalls, TxInCall, SignedOutputs, SignedInputs, Concat, GoodTransparent, SameSigned, IsCoinbase;
    hide AskedAlike;
    Pow256Table();
    LEInjective(1, HashTypeOf(s), HashTypeOf(t));
    InputsBind(SignedInputs(a, s), SignedInputs(b, t));
    AmountsBind(SignedCoins(ka, s).amounts, SignedCoins(kb, t).amounts);
    ScriptListsAgree(SignedCoins(ka, s).scripts, SignedCoins(kb, t).scripts);
    OutputListsAgree(SignedOutputs(a, s), SignedOutputs(b, t));
    TxInBinds(a, s, b, t);
  }

  lemma GoodSignedOutputs(a: TransparentBundle, s: Signable)
    requires GoodTransparent(Some(a))
    ensures forall o :: o in SignedOutputs(a, s) ==> GoodTxOut(o)
  {
  }

  lemma SigCallsSame(h: Blake2b, xs: set<Call>, ys: set<Call>, a: TransparentBundle, ka: Coins, s: Signable,
                     b: TransparentBundle, kb: Coins, t: Signable)
    requires (s.Shielded? || s.index < |a.vin|) && (t.Shielded? || t.index < |b.vin|)
    requires !NothingToSign(Some(a)) && !NothingToSign(Some(b))
    requires !Collision(h, xs, ys) && SigCalls(h, Some(a), ka, s) <= xs && SigCalls(h, Some(b), kb, t) <= ys
    requires SigBody(h, a, ka, s) == SigBody(h, b, kb, t)
    ensures PrevoutsCall(SignedInputs(a, s)) == PrevoutsCall(SignedInputs(b, t))
    ensures AmountsCall(SignedCoins(ka, s)) == AmountsCall(SignedCoins(kb, t))
    ensures ScriptsCall(SignedCoins(ka, s)) == ScriptsCall(SignedCoins(kb, t))
    ensures SequencesCall(SignedInputs(a, s)) == SequencesCall(SignedInputs(b, t))
    ensures OutputsCall(SignedOutputs(a, s)) == OutputsCall(SignedOutputs(b, t))
    ensures TxInCall(a, s) == TxInCall(b, t)
  {
    SigBodyBinds(h, a, ka, s, b, kb, t);
    hide PrevoutsCall, AmountsCall, ScriptsCall, SequencesCall, OutputsCall, TxInCall, SignedInputs, SignedCoins;
    hide SignedOutputs, Collision, TransparentSigCall;
    Same(h, xs, ys, PrevoutsCall(SignedInputs(a, s)), PrevoutsCall(SignedInputs(b, t)));
    Same(h, xs, ys, AmountsCall(SignedCoins(ka, s)), AmountsCall(SignedCoins(kb, t)));
    Same(h, xs, ys, ScriptsCall(SignedCoins(ka, s)), ScriptsCall(SignedCoins(kb, t)));
    Same(h, xs, ys, SequencesCall(SignedInputs(a, s)), SequencesCall(SignedInputs(b, t)));
    Same(h, xs, ys, OutputsCall(SignedOutputs(a, s)), OutputsCall(SignedOutputs(b, t)));
    Same(h, xs, ys, TxInCall(a, s), TxInCall(b, t));
  }

  //////////////////////////////////////////////////////////////////////////////
  // Whole signature hashes
  //////////////////////////////////////////////////////////////////////////////

  /** Every hash computed for a signature hash. */
  ghost function SighashCalls(h: Blake2b, c: Commitments, d: TxData, coins: Coins, s: Signable): set<Call>
    requires Signs(d.transparent, s)
  {
    {SighashCall(h, c, d, coins, s), HeaderCall(d)} + SigCalls(h, d.transparent, coins, s)
    + SaplingCalls(h, d.version, d.sapling) + if d.staking.None? then {} else {CrosslinkCall(d.staking.value)}
  }

  /** Everything a signature hash is meant to cover. */
  ghost predicate Covered(c: Commitments, a: TxData, ka: Coins, s: Signable, b: TxData, kb: Coins, t: Signable)
    requires Signs(a.transparent, s) && Signs(b.transparent, t)
  {
    && a.version == b.version && a.branch == b.branch && a.lockTime == b.lockTime && a.expiry == b.expiry
    && SignedAlike(a.transparent, ka, s, b.transparent, kb, t)
    && SameSaplingEffects(a.version, a.sapling, b.sapling)
    && a.staking == b.staking
    && OrchardTxid(c, a.version, a.orchard) == OrchardTxid(c, a.version, b.orchard)
    && (HasIronwood(a.version) ==>
          IronwoodTxid(c, a.ironwood) == IronwoodTxid(c, b.ironwood))
  }

  lemma SameSaplingHashesAlike(h: Blake2b, v: TxVersion, a: Option<SaplingBundle>, b: Option<SaplingBundle>)
    requires SameSaplingEffects(v, a, b)
    ensures SaplingCall(h, v, a) == SaplingCall(h, v, b)
  {
    if a.Some? {
      SameSpendsHashAlike(h, v, a.value.spends, b.value.spends);
      SameOutputsHashAlike(h, a.value.outputs, b.value.outputs);
      hide SpendsCall, SaplingOutputsCall, EncBalance;
    }
  }

  lemma SameSpendsHashAlike(h: Blake2b, v: TxVersion, a: seq<Spend>, b: seq<Spend>)
    requires SameSpendEffects(v, a, b)
    ensures SpendsCall(h, v, a) == SpendsCall(h, v, b)
  {
    ConcatAlike(a, EncNullifier, b, EncNullifier);
    ConcatAlike(a, SpendEncoder(v), b, SpendEncoder(v));
  }

  lemma SameOutputsHashAlike(h: Blake2b, a: seq<Output>, b: seq<Output>)
    requires SameOutputEffects(a, b)
    ensures SaplingOutputsCall(h, a) == SaplingOutputsCall(h, b)
  {
    forall i | 0 <= i < |a|
      ensures a[i].cv == b[i].cv && a[i].cmu == b[i].cmu && a[i].epk == b[i].epk
      ensures a[i].enc == b[i].enc && a[i].out == b[i].out
    {
      assert CompactOutput(a[i]) == CompactOutput(b[i]);
    }
    ConcatAlike(a, EncOutputCompact, b, EncOutputCompact);
    ConcatAlike(a, EncOutputMemo, b, EncOutputMemo);
    ConcatAlike(a, EncOutputNoncompact, b, EncOutputNoncompact);
  }

  /** Readable transactions hand on the same parts to both kinds of hash. */
  lemma PartsAreSigParts(h: Blake2b, c: Commitments, k: Rules, d: TxData)
    requires GoodModern(k, d)
    ensures SigParts(h, c, d) == PartsOf(h, c, d)
  {
  }

  /**
   * Short of a collision, two signature hashes are equal exactly when they cover the same: the
   * header, the Sapling effects, the Orchard and Ironwood commitments, the staking action, and
   * the transparent parts that the hash type selects.
   */
  lemma SighashCoversExactly(h: Blake2b, c: Commitments, k: Rules, a: TxData, ka: Coins, s: Signable,
                             b: TxData, kb: Coins, t: Signable)
    requires Readable(k, a) && Readable(k, b) && !Legacy(a.version) && !Legacy(b.version)
    requires Signs(a.transparent, s) && Signs(b.transparent, t) && GoodSigning(ka, s) && GoodSigning(kb, t)
    requires !Collision(h, SighashCalls(h, c, a, ka, s), SighashCalls(h, c, b, kb, t))
    ensures Sighash(h, c, a, ka, s) == Sighash(h, c, b, kb, t) <==> Covered(c, a, ka, s, b, kb, t)
  {
    if Sighash(h, c, a, ka, s) == Sighash(h, c, b, kb, t) {
      SighashBinds(h, c, k, a, ka, s, b, kb, t);
    }
    if Covered(c, a, ka, s, b, kb, t) {
      CoveredHashesAlike(h, c, k, a, ka, s, b, kb, t);
    }
  }

  lemma CoveredHashesAlike(h: Blake2b, c: Commitments, k: Rules, a: TxData, ka: Coins, s: Signable,
                           b: TxData, kb: Coins, t: Signable)
    requires GoodModern(k, a) && GoodModern(k, b)
    requires Signs(a.transparent, s) && Signs(b.transparent, t) && Covered(c, a, ka, s, b, kb, t)
    ensures Sighash(h, c, a, ka, s) == Sighash(h, c, b, kb, t)
  {
    SignedAlikeHashesAlike(h, a.transparent, ka, s, b.transparent, kb, t);
    SameSaplingHashesAlike(h, a.version, a.sapling, b.sapling);
    PartsAreSigParts(h, c, k, a);
    PartsAreSigParts(h, c, k, b);
    hide TransparentSigCall, SaplingCall, SameSaplingEffects, CrosslinkCall, TransparentParts, SignedAlike, LE;
    assert HeaderCall(a) == HeaderCall(b);
    hide HeaderCall;
  }

  lemma SighashBinds(h: Blake2b, c: Commitments, k: Rules, a: TxData, ka: Coins, s: Signable,
                     b: TxData, kb: Coins, t: Signable)
    requires Readable(k, a) && Readable(k, b) && !Legacy(a.version) && !Legacy(b.version)
    requires Signs(a.transparent, s) && Signs(b.transparent, t) && GoodSigning(ka, s) && GoodSigning(kb, t)
    requires !Collision(h, SighashCalls(h, c, a, ka, s), SighashCalls(h, c, b, kb, t))
    requires Sighash(h, c, a, ka, s) == Sighash(h, c, b, kb, t)
    ensures Covered(c, a, ka, s, b, kb, t)
  {
    hide HeaderCall, TransparentSigCall, SaplingCall, CrosslinkCall, GoodTransparent, GoodSapling, SigParts, PartsOf;
    hide SignedAlike, SameSaplingEffects, SaplingCalls, SigCalls, RootCall, Collision, GoodSigning, Signs, GoodOrchard;
    var xs, ys := SighashCalls(h, c, a, ka, s), SighashCalls(h, c, b, kb, t);
    Same(h, xs, ys, SighashCall(h, c, a, ka, s), SighashCall(h, c, b, kb, t));
    PartsAreSigParts(h, c, k, a);
    PartsAreSigParts(h, c, k, b);
    RootBinds(h, c, a, b, Digest(h, TransparentSigCall(h, a.transparent, ka, s)),
              Digest(h, TransparentSigCall(h, b.transparent, kb, t)));
    Same(h, xs, ys, HeaderCall(a), HeaderCall(b));
    HeaderBinds(a, b);
    TransparentSigBinds(h, xs, ys, a.transparent, ka, s, b.transparent, kb, t);
    NoEmptySapling(k, a);
    NoEmptySapling(k, b);
    SaplingBinds(h, xs, ys, a.version, a.sapling, b.sapling);
    StakingBinds(h, xs, ys, a, b);
  }

  //////////////////////////////////////////////////////////////////////////////
  // What each hash type leaves open
  //////////////////////////////////////////////////////////////////////////////

  /** Hypotheses under which the signature hashes of two transactions bind what they cover. */
  ghost predicate Comparable(h: Blake2b, c: Commitments, k: Rules, a: TxData, ka: Coins, s: Signable,
                             b: TxData, kb: Coins, t: Signable)
  {
    && Readable(k, a) && Readable(k, b) && !Legacy(a.version) && !Legacy(b.version)
    && Signs(a.transparent, s) && Signs(b.transparent, t) && GoodSigning(ka, s) && GoodSigning(kb, t)
    && !NothingToSign(a.transparent) && !NothingToSign(b.transparent)
    && !Collision(h, SighashCalls(h, c, a, ka, s), SighashCalls(h, c, b, kb, t))
  }

  /** Unless the low five bits are 2 or 3, and for every shielded part, all outputs are signed. */
  lemma OthersSignEveryOutput(h: Blake2b, c: Commitments, k: Rules, a: TxData, ka: Coins, s: Signable,
                              b: TxData, kb: Coins, t: Signable)
    requires Comparable(h, c, k, a, ka, s, b, kb, t)
    requires s.Shielded? || s.hashType % 32 !in [2, 3]
    requires Sighash(h, c, a, ka, s) == Sighash(h, c, b, kb, t)
    ensures a.transparent.value.vout == b.transparent.value.vout
  {
    hide Sighash, SighashCalls, Readable, GoodSigning, IsCoinbase, Collision;
    SighashCoversExactly(h, c, k, a, ka, s, b, kb, t);
  }

  /** Below 0x80, and for every shielded part, all inputs and all coins spent are signed. */
  lemma LowTypesSignEveryInput(h: Blake2b, c: Commitments, k: Rules, a: TxData, ka: Coins, s: Signable,
                               b: TxData, kb: Coins, t: Signable)
    requires Comparable(h, c, k, a, ka, s, b, kb, t)
    requires s.Shielded? || s.hashType < 0x80
    requires Sighash(h, c, a, ka, s) == Sighash(h, c, b, kb, t)
    ensures SameInputEffects(a.transparent.value.vin, b.transparent.value.vin) && ka == kb
  {
    hide Sighash, SighashCalls, Readable, GoodSigning, IsCoinbase, Collision;
    SighashCoversExactly(h, c, k, a, ka, s, b, kb, t);
  }

  function WithTransparent(d: TxData, vin: seq<TxIn>, vout: seq<TxOut>): TxData {
    d.(transparent := Some(TransparentBundle(vin, vout)))
  }

  /** Under 2 no output is signed: any others give the same hash. */
  lemma NoneSignsNoOutput(h: Blake2b, c: Commitments, d: TxData, vin: seq<TxIn>, vout: seq<TxOut>, vout': seq<TxOut>,
                          coins: Coins, s: Signable)
    requires s.Input? && s.index < |vin| && s.hashType % 32 == 2
    requires !IsCoinbase(TransparentBundle(vin, vout)) && !Legacy(d.version)
    ensures Sighash(h, c, WithTransparent(d, vin, vout), coins, s)
         == Sighash(h, c, WithTransparent(d, vin, vout'), coins, s)
  {
    OnlyTransparentDiffers(h, c, d, vin, vout, coins, s, vin, vout', coins, s);
  }

  /** Under 3 only the output at the input's own place is signed, or that there is none. */
  lemma SingleSignsItsOutput(h: Blake2b, c: Commitments, d: TxData, vin: seq<TxIn>, vout: seq<TxOut>,
                             vout': seq<TxOut>, coins: Coins, s: Signable)
    requires s.Input? && s.index < |vin| && s.hashType % 32 == 3
    requires !IsCoinbase(TransparentBundle(vin, vout)) && !Legacy(d.version)
    requires if s.index < |vout| then s.index < |vout'| && vout[s.index] == vout'[s.index] else s.index >= |vout'|
    ensures Sighash(h, c, WithTransparent(d, vin, vout), coins, s)
         == Sighash(h, c, WithTransparent(d, vin, vout'), coins, s)
  {
    OnlyTransparentDiffers(h, c, d, vin, vout, coins, s, vin, vout', coins, s);
  }

  /** And that output is: two hashes under 3 that agree do so on it too. */
  lemma SingleBindsItsOutput(h: Blake2b, c: Commitments, k: Rules, a: TxData, ka: Coins, s: Signable,
                             b: TxData, kb: Coins, t: Signable)
    requires Comparable(h, c, k, a, ka, s, b, kb, t)
    requires s.Input? && s.hashType % 32 == 3
    requires Sighash(h, c, a, ka, s) == Sighash(h, c, b, kb, t)
    ensures var vout, vout' := a.transparent.value.vout, b.transparent.value.vout;
      t.Input? && if s.index < |vout| then t.index < |vout'| && vout[s.index] == vout'[t.index] else t.index >= |vout'|
  {
    hide Sighash, SighashCalls, Readable, GoodSigning, IsCoinbase, Collision;
    SighashCoversExactly(h, c, k, a, ka, s, b, kb, t);
  }

  /** From 0x80 on the other inputs and the coins they spend do not matter, nor, unless under 3, does the place. */
  lemma HighTypesSignOneInput(h: Blake2b, c: Commitments, d: TxData, vin: seq<TxIn>, coins: Coins, s: Signable,
                              vin': seq<TxIn>, coins': Coins, t: Signable, vout: seq<TxOut>)
    requires s.Input? && s.index < |vin| && s.hashType >= 0x80
    requires t.Input? && t == s.(index := t.index) && t.index < |vin'| && (s.hashType % 32 == 3 ==> t.index == s.index)
    requires vin[s.index].prevout == vin'[t.index].prevout && vin[s.index].sequence == vin'[t.index].sequence
    requires !IsCoinbase(TransparentBundle(vin, vout)) && !IsCoinbase(TransparentBundle(vin', vout))
    requires !Legacy(d.version)
    ensures Sighash(h, c, WithTransparent(d, vin, vout), coins, s)
         == Sighash(h, c, WithTransparent(d, vin', vout), coins', t)
  {
    OnlyTransparentDiffers(h, c, d, vin, vout, coins, s, vin', vout, coins', t);
  }

  lemma OnlyTransparentDiffers(h: Blake2b, c: Commitments, d: TxData, vin: seq<TxIn>, vout: seq<TxOut>, coins: Coins,
                               s: Signable, vin': seq<TxIn>, vout': seq<TxOut>, coins': Coins, t: Signable)
    requires var a, b := TransparentBundle(vin, vout), TransparentBundle(vin', vout');
      && Signs(Some(a), s) && Signs(Some(b), t)
      && SignedAlike(Some(a), coins, s, Some(b), coins', t)
    ensures Sighash(h, c, WithTransparent(d, vin, vout), coins, s)
         == Sighash(h, c, WithTransparent(d, vin', vout'), coins', t)
  {
    var a, b := Some(TransparentBundle(vin, vout)), Some(TransparentBundle(vin', vout'));
    SignedAlikeHashesAlike(h, a, coins, s, b, coins', t);
    var x, y := WithTransparent(d, vin, vout), WithTransparent(d, vin', vout');
    hide TransparentSigCall, SaplingCall, CrosslinkCall, LE, SignedAlike, Signs, TransparentParts;
    assert HeaderCall(x) == HeaderCall(y);
    hide HeaderCall;
  }

  /** With nothing transparent to sign, what is signed is the transaction's own identifier. */
  lemma ShieldedSighashIsTxid(h: Blake2b, c: Commitments, k: Rules, d: TxData, coins: Coins, s: Signable)
    requires GoodModern(k, d) && NothingToSign(d.transparent)
    ensures Sighash(h, c, d, coins, s) == Txid(h, c, d)
  {
    PartsAreSigParts(h, c, k, d);
  }

  /** In v6 no signature hash, transparent or shielded, depends on the Sapling anchor. */
  lemma AnchorIsNotSignedInV6(h: Blake2b, c: Commitments, d: TxData, anchor: Bytes32, coins: Coins, s: Signable)
    requires d.version.V6? && Signs(d.transparent, s)
    ensures Sighash(h, c, WithAnchor(d, anchor), coins, s) == Sighash(h, c, d, coins, s)
  {
    AnchorIsNoEffectInV6(h, c, d, anchor);
    hide PartsOf, TransparentSigCall, Reanchored;
  }

  //////////////////////////////////////////////////////////////////////////////
  // Hasher states
  //////////////////////////////////////////////////////////////////////////////

  method HashAmounts(h: Blake2b, coins: Coins) returns (digest: Bytes32)
    ensures digest == Digest(h, AmountsCall(coins))
  {
    var st := new Hasher(AMOUNTS);
    for i := 0 to |coins.amounts|
      invariant st.input == [] + Concat(coins.amounts[..i], EncAmount)
    {
      st.WriteAll(LE(coins.amounts[i], 8));
      Extend(st.input, [], coins.amounts, i, EncAmount);
    }
    assert coins.amounts[..|coins.amounts|] == coins.amounts;
    assert st.input == AmountsCall(coins).input;
    digest := st.Finalize(h);
  }

  method HashCoinScripts(h: Blake2b, coins: Coins) returns (digest: Bytes32)
    ensures digest == Digest(h, ScriptsCall(coins))
  {
    var st := new Hasher(SCRIPTS);
    for i := 0 to |coins.scripts|
      invariant st.input == [] + Concat(coins.scripts[..i], EncBlob)
    {
      st.WriteAll(EncBlob(coins.scripts[i]));
      Extend(st.input, [], coins.scripts, i, EncBlob);
    }
    assert coins.scripts[..|coins.scripts|] == coins.scripts;
    assert st.input == ScriptsCall(coins).input;
    digest := st.Finalize(h);
  }

  method HashTxIn(h: Blake2b, b: TransparentBundle, s: Signable) returns (digest: Bytes32)
    requires s.Shielded? || s.index < |b.vin|
    ensures digest == Digest(h, TxInCall(b, s))
  {
    hide LE, EncBlob;
    var st := new Hasher(TX_IN);
    if s.Input? {
      var txin := b.vin[s.index];
      st.WriteAll(EncOutPoint(txin.prevout));
      st.WriteAll(LE(s.value, 8));
      st.WriteAll(EncBlob(s.script));
      st.WriteAll(LE(txin.sequence, 4));
    }
    assert st.input == TxInCall(b, s).input;
    digest := st.Finalize(h);
  }

  /** The outputs digest that the hash type asks for, reusing the identifier's where it is the same. */
  method SigOutputs(h: Blake2b, b: TransparentBundle, txid: TransparentDigests, s: Signable) returns (digest: Bytes32)
    requires txid == TransparentParts(h, b)
    ensures digest == Digest(h, OutputsCall(SignedOutputs(b, s)))
  {
    if s.Input? && Mode(s.hashType) == SIGHASH_SINGLE {
      if s.index < |b.vout| {
        digest := HashOutputs(h, [b.vout[s.index]]);
      } else {
        digest := HashOutputs(h, []);
      }
    } else if s.Input? && Mode(s.hashType) == SIGHASH_NONE {
      digest := HashOutputs(h, []);
    } else {
      digest := txid.outputs;
    }
  }

  method HashSigned(h: Blake2b, hashType: u8, prevouts: Bytes, amounts: Bytes, scripts: Bytes, sequences: Bytes,
                    outputs: Bytes, txin: Bytes) returns (digest: Bytes32)
    ensures digest == Digest(h, Call(
              TRANSPARENT, LE(hashType, 1) + (prevouts + amounts + scripts + sequences + (outputs + txin))))
  {
    hide LE;
    var st := new Hasher(TRANSPARENT);
    st.WriteAll(LE(hashType, 1));
    st.WriteAll(prevouts);
    st.WriteAll(amounts);
    st.WriteAll(scripts);
    st.WriteAll(sequences);
    st.WriteAll(outputs);
    st.WriteAll(txin);
    assert st.input == LE(hashType, 1) + (prevouts + amounts + scripts + sequences + (outputs + txin));
    digest := st.Finalize(h);
  }

  /** `transparent_sig_digest`, given the identifier's transparent digests. */
  method TransparentSigDigest(h: Blake2b, b: Option<TransparentBundle>, txid: Option<TransparentDigests>, coins: Coins,
                              s: Signable) returns (digest: Bytes32)
    requires Signs(b, s)
    requires txid == if b.None? then None else Some(TransparentParts(h, b.value))
    ensures digest == Digest(h, TransparentSigCall(h, b, coins, s))
  {
    hide PrevoutsCall, AmountsCall, ScriptsCall, SequencesCall, OutputsCall, TxInCall, SignedOutputs, LE, IsCoinbase;
    if b.None? {
      digest := HashTransparent(h, None);
    } else if IsCoinbase(b.value) || b.value.vin == [] {
      digest := HashTransparent(h, txid);
    } else {
      var hashType := HashTypeOf(s);
      var prevouts, sequences := txid.value.prevouts, txid.value.sequences;
      var signed := coins;
      if AnyoneCanPay(hashType) {
        prevouts := HashPrevouts(h, []);
        sequences := HashSequences(h, []);
        signed := Coins([], []);
      }
      var amounts := HashAmounts(h, signed);
      var scripts := HashCoinScripts(h, signed);
      var outputs := SigOutputs(h, b.value, txid.value, s);
      var txin := HashTxIn(h, b.value, s);
      digest := HashSigned(h, hashType, prevouts, amounts, scripts, sequences, outputs, txin);
    }
  }

  /** `signature_hash` from v5 on, given the parts made for the identifier. */
  method SignatureHash(h: Blake2b, c: Commitments, d: TxData, parts: TxidParts, coins: Coins, s: Signable)
    returns (digest: Bytes32)
    requires !Legacy(d.version) && Signs(d.transparent, s) && parts == PartsOf(h, c, d)
    ensures digest == Sighash(h, c, d, coins, s)
  {
    hide RootCall, HeaderCall, SaplingCall, CrosslinkCall, TransparentParts, TransparentSigCall;
    var transparent := TransparentSigDigest(h, d.transparent, parts.transparent, coins, s);
    match d.version {
      case V5 =>
        digest := ToHash(h, c, d.version, d.branch, transparent, parts.(crosslink := None));
      case _ =>
        digest := ToHash(h, c, d.version, d.branch, transparent, parts);
    }
  }
}
