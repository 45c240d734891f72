/** Transaction data and its wire formats. */
module Transactions {
  import opened ByteStrings
  import opened Io
  import opened Orchard
  import opened Sapling
  import opened Schedules
  import opened Sprout
  import opened Staking
  import opened Transparent
  import opened TxVersions
  import opened Values

  datatype TxData = TxData(
    version: TxVersion, branch: BranchId, lockTime: u32, expiry: u32, transparent: Option<TransparentBundle>,
    sprout: Option<SproutBundle>, sapling: Option<SaplingBundle>, orchard: Option<OrchardBundle>,
    ironwood: Option<OrchardBundle>, staking: Option<StakingAction>)

  /** Which encodings of group and field elements are accepted. */
  datatype Rules = Rules(curves: Curves, pallas: Pallas)

  //////////////////////////////////////////////////////////////////////////////
  // Formats up to v4
  //////////////////////////////////////////////////////////////////////////////

  function EncLocks(d: TxData): Bytes {
    LE(d.lockTime, 4) + (if HasOverwinter(d.version) then LE(d.expiry, 4) else [])
  }

  function ParseLocks(v: TxVersion, s: Bytes): Parsed<(u32, u32)> {
    var (lockTime, s) :- ParseU32(s);
    if !HasOverwinter(v) then Done((lockTime, 0), s) else
      var (expiry, s) :- ParseU32(s);
      Done((lockTime, expiry), s)
  }

  /** Without a bundle there is still a value balance slot; the writer fills it with `slot` = 0. */
  function ComponentsOf(b: Option<SaplingBundle>, slot: ZatBalance): ComponentsV4 {
    match b
    case None => ComponentsV4(slot, [], [])
    case Some(b) => ComponentsV4(b.valueBalance, b.spends, b.outputs)
  }

  function EncLegacySapling(d: TxData, slot: ZatBalance): Bytes {
    if HasSapling(d.version) then EncComponentsV4(ComponentsOf(d.sapling, slot)) else []
  }

  function ParseLegacySapling(k: Curves, v: TxVersion, s: Bytes): Parsed<ComponentsV4> {
    if HasSapling(v) then ParseComponentsV4(k, s) else Done(ComponentsV4(0, [], []), s)
  }

  function EncLegacySprout(d: TxData): Bytes {
    if HasSprout(d.version) then EncSprout(d.sprout) else []
  }

  function ParseLegacySprout(v: TxVersion, s: Bytes): Parsed<Option<SproutBundle>> {
    if HasSprout(v) then ParseSprout(HasSapling(v), s) else Done(None, s)
  }

  function EncBindingSig(d: TxData): Bytes {
    if HasSapling(d.version) && d.sapling.Some? then d.sapling.value.bindingSig else []
  }

  /** A signature, and so a bundle, is present exactly when there is a spend or an output. */
  function ParseBindingSig(v: TxVersion, c: ComponentsV4, s: Bytes): Parsed<Option<SaplingBundle>> {
    if HasSapling(v) && !(c.spends == [] && c.outputs == []) then
      var (sig, s) :- Take(64, s);
      Done(Some(SaplingBundle(c.spends, c.outputs, c.balance, sig)), s)
    else Done(None, s)
  }

  function EncLegacy(d: TxData, slot: ZatBalance): Bytes {
    EncTransparent(d.transparent) + EncLocks(d) + EncLegacySapling(d, slot) + EncLegacySprout(d) + EncBindingSig(d)
  }

  /** What the legacy reader finds: the data, and the value balance slot when it means nothing. */
  datatype LegacyRead = LegacyRead(data: TxData, slot: ZatBalance)

  function ParseLegacy(k: Rules, v: TxVersion, branch: BranchId, s: Bytes): Parsed<LegacyRead> {
    var (transparent, s) :- ParseTransparent(s);
    var (locks, s) :- ParseLocks(v, s);
    var (c, s) :- ParseLegacySapling(k.curves, v, s);
    var (sprout, s) :- ParseLegacySprout(v, s);
    var (sapling, s) :- ParseBindingSig(v, c, s);
    var data := TxData(v, branch, locks.0, locks.1, transparent, sprout, sapling, None, None, None);
    Done(LegacyRead(data, if sapling.None? then c.balance else 0), s)
  }

  predicate GoodLegacy(k: Rules, d: TxData) {
    && GoodTransparent(d.transparent)
    && (!HasOverwinter(d.version) ==> d.expiry == 0)
    && (if HasSapling(d.version) then d.sapling.Some? ==> GoodSapling(k.curves, d.sapling.value) else d.sapling.None?)
    && (if HasSprout(d.version) then GoodSprout(HasSapling(d.version), d.sprout) else d.sprout.None?)
    && d.orchard.None? && d.ironwood.None? && d.staking.None?
  }

  lemma LocksRoundTrip(d: TxData, t: Bytes)
    requires !HasOverwinter(d.version) ==> d.expiry == 0
    ensures ParseLocks(d.version, EncLocks(d) + t) == Done((d.lockTime, d.expiry), t)
  {
    hide ParseU32, LE;
    var expiry := if HasOverwinter(d.version) then LE(d.expiry, 4) else [];
    Regroup2(LE(d.lockTime, 4), expiry, t);
    U32RoundTrip(d.lockTime, expiry + t);
    U32RoundTrip(d.expiry, t);
    assert [] + t == t;
  }

  lemma LocksReencode(d: TxData, s: Bytes)
    requires ParseLocks(d.version, s).Done? && ParseLocks(d.version, s).value == (d.lockTime, d.expiry)
    ensures !HasOverwinter(d.version) ==> d.expiry == 0
    ensures s == EncLocks(d) + ParseLocks(d.version, s).rest
  {
    hide ParseU32, LE;
    var t := ParseLocks(d.version, s).rest;
    Regroup2(LE(d.lockTime, 4), if HasOverwinter(d.version) then LE(d.expiry, 4) else [], t);
    assert [] + t == t;
  }

  lemma GoodComponents(k: Curves, b: Option<SaplingBundle>, slot: ZatBalance)
    requires b.Some? ==> GoodSapling(k, b.value)
    ensures GoodComponentsV4(k, ComponentsOf(b, slot))
  {
  }

  /** Reading what was written with anything in the slot gives the data back, and the slot. */
  lemma LegacyRoundTrip(k: Rules, d: TxData, slot: ZatBalance, t: Bytes)
    requires GoodLegacy(k, d)
    requires slot == 0 || (HasSapling(d.version) && d.sapling.None?)
    ensures ParseLegacy(k, d.version, d.branch, EncLegacy(d, slot) + t) == Done(LegacyRead(d, slot), t)
  {
    hide ParseTransparent, EncTransparent, GoodTransparent, ParseLocks, EncLocks, ParseComponentsV4, EncComponentsV4;
    hide ParseSprout, EncSprout, GoodSprout, GoodComponentsV4;
    var c := ComponentsOf(d.sapling, slot);
    var locks, sapling, sprout, sig := EncLocks(d), EncLegacySapling(d, slot), EncLegacySprout(d), EncBindingSig(d);
    Regroup5(EncTransparent(d.transparent), locks, sapling, sprout, sig, t);
    TransparentRoundTrip(d.transparent, locks + (sapling + (sprout + (sig + t))));
    LocksRoundTrip(d, sapling + (sprout + (sig + t)));
    if HasSapling(d.version) {
      GoodComponents(k.curves, d.sapling, slot);
      ComponentsV4RoundTrip(k.curves, c, sprout + (sig + t));
    } else {
      assert sapling + (sprout + (sig + t)) == sprout + (sig + t);
    }
    if HasSprout(d.version) {
      SproutRoundTrip(HasSapling(d.version), d.sprout, sig + t);
    } else {
      assert sprout + (sig + t) == sig + t;
    }
    BindingSigRoundTrip(k.curves, d, slot, t);
  }

  lemma BindingSigRoundTrip(k: Curves, d: TxData, slot: ZatBalance, t: Bytes)
    requires if HasSapling(d.version) then d.sapling.Some? ==> GoodSapling(k, d.sapling.value) else d.sapling.None?
    ensures ParseBindingSig(d.version, ComponentsOf(d.sapling, slot), EncBindingSig(d) + t) == Done(d.sapling, t)
  {
    if d.sapling.None? {
      assert [] + t == t;
    }
  }

  lemma LegacyReencodes(k: Rules, v: TxVersion, branch: BranchId, s: Bytes)
    requires ParseLegacy(k, v, branch, s).Done?
    ensures var p := ParseLegacy(k, v, branch, s);
      && p.value.data.version == v && p.value.data.branch == branch
      && GoodLegacy(k, p.value.data)
      && s == EncLegacy(p.value.data, p.value.slot) + p.rest
      && (p.value.slot == 0 || (HasSapling(v) && p.value.data.sapling.None?))
  {
    hide ParseTransparent, EncTransparent, GoodTransparent, ParseLocks, EncLocks, ParseComponentsV4, EncComponentsV4;
    hide ParseSprout, EncSprout, GoodSprout;
    var p := ParseLegacy(k, v, branch, s);
    var d, slot, t := p.value.data, p.value.slot, p.rest;
    var s1 := ParseTransparent(s).rest;
    var s2 := ParseLocks(v, s1).rest;
    var c, s3 := ParseLegacySapling(k.curves, v, s2).value, ParseLegacySapling(k.curves, v, s2).rest;
    var s4 := ParseLegacySprout(v, s3).rest;
    TransparentReencodes(s);
    LocksReencode(d, s1);
    if HasSapling(v) {
      ComponentsV4Reencode(k.curves, s2);
      assert c == ComponentsOf(d.sapling, slot);
    } else {
      assert [] + s2 == s2;
    }
    if HasSprout(v) {
      SproutReencodes(HasSapling(v), s3);
    } else {
      assert [] + s3 == s3;
    }
    assert s4 == EncBindingSig(d) + t by {
      assert [] + s4 == s4;
    }
    Regroup5(EncTransparent(d.transparent), EncLocks(d), EncLegacySapling(d, slot), EncLegacySprout(d),
             EncBindingSig(d), t);
  }

  //////////////////////////////////////////////////////////////////////////////
  // Formats from v5 on
  //////////////////////////////////////////////////////////////////////////////

  function EncFragment(d: TxData): Bytes {
    LE(BranchToU32(d.branch), 4) + LE(d.lockTime, 4) + LE(d.expiry, 4)
  }

  function ParseFragment(s: Bytes): Parsed<(BranchId, u32, u32)> {
    var (word, s) :- ParseU32(s);
    match BranchFromU32(word)
    case None => Bad(InvalidData)
    case Some(branch) =>
      var (lockTime, s) :- ParseU32(s);
      var (expiry, s) :- ParseU32(s);
      Done((branch, lockTime, expiry), s)
  }

  /** What follows the Orchard bundle: the Ironwood bundle in v6, the staking action in VCrosslink. */
  function EncExtra(d: TxData): Bytes {
    if HasIronwood(d.version) then EncOrchard(d.ironwood)
    else if HasCrosslink(d.version) then EncStaking(d.staking)
    else []
  }

  function ParseExtra(k: Pallas, v: TxVersion, branch: BranchId, s: Bytes)
    : Parsed<(Option<OrchardBundle>, Option<StakingAction>)>
  {
    if HasIronwood(v) then
      var (ironwood, s) :- ParseOrchard(k, BundleVersionForBranch(branch, IronwoodPool), s);
      Done((ironwood, None), s)
    else if HasCrosslink(v) then
      var (staking, s) :- ParseStaking(s);
      Done((None, staking), s)
    else Done((None, None), s)
  }

  function EncModern(d: TxData): Bytes {
    EncFragment(d) + EncTransparent(d.transparent) + EncSaplingV5(d.sapling) + EncOrchard(d.orchard) + EncExtra(d)
  }

  function ParseModern(k: Rules, v: TxVersion, s: Bytes): Parsed<TxData> {
    var (h, s) :- ParseFragment(s);
    var (transparent, s) :- ParseTransparent(s);
    var (sapling, s) :- ParseSaplingV5(k.curves, s);
    var (orchard, s) :- ParseOrchard(k.pallas, BundleVersionForBranch(h.0, OrchardPool), s);
    var (extra, s) :- ParseExtra(k.pallas, v, h.0, s);
    Done(TxData(v, h.0, h.1, h.2, transparent, None, sapling, orchard, extra.0, extra.1), s)
  }

  /** What the readers from v5 on produce. */
  predicate GoodModern(k: Rules, d: TxData) {
    && GoodTransparent(d.transparent)
    && GoodSaplingV5(k.curves, d.sapling)
    && GoodOrchard(k.pallas, BundleVersionForBranch(d.branch, OrchardPool), d.orchard)
    && (if HasIronwood(d.version)
        then GoodOrchard(k.pallas, BundleVersionForBranch(d.branch, IronwoodPool), d.ironwood)
        else d.ironwood.None?)
    && (!HasCrosslink(d.version) ==> d.staking.None?)
    && d.sprout.None?
  }

  lemma FragmentRoundTrip(d: TxData, t: Bytes)
    ensures ParseFragment(EncFragment(d) + t) == Done((d.branch, d.lockTime, d.expiry), t)
  {
    hide ParseU32, LE, BranchToU32, BranchFromU32;
    var word := BranchToU32(d.branch);
    Regroup3(LE(word, 4), LE(d.lockTime, 4), LE(d.expiry, 4), t);
    U32RoundTrip(word, LE(d.lockTime, 4) + (LE(d.expiry, 4) + t));
    U32RoundTrip(d.lockTime, LE(d.expiry, 4) + t);
    U32RoundTrip(d.expiry, t);
    BranchIdsDistinct(BranchFromU32(word).value, d.branch);
  }

  lemma FragmentReencodes(d: TxData, s: Bytes)
    requires ParseFragment(s).Done? && ParseFragment(s).value == (d.branch, d.lockTime, d.expiry)
    ensures s == EncFragment(d) + ParseFragment(s).rest
  {
    hide ParseU32, LE, BranchToU32, BranchFromU32;
    Regroup3(LE(BranchToU32(d.branch), 4), LE(d.lockTime, 4), LE(d.expiry, 4), ParseFragment(s).rest);
  }

  lemma ExtraRoundTrip(k: Rules, d: TxData, t: Bytes)
    requires GoodModern(k, d)
    ensures ParseExtra(k.pallas, d.version, d.branch, EncExtra(d) + t) == Done((d.ironwood, d.staking), t)
  {
    hide ParseOrchard, EncOrchard, GoodOrchard, ParseStaking, EncStaking, BundleVersionForBranch;
    if HasIronwood(d.version) {
      OrchardRoundTrip(k.pallas, BundleVersionForBranch(d.branch, IronwoodPool), d.ironwood, t);
    } else if HasCrosslink(d.version) {
      StakingRoundTrip(d.staking, t);
    } else {
      assert [] + t == t;
    }
  }

  lemma ModernRoundTrip(k: Rules, d: TxData, t: Bytes)
    requires GoodModern(k, d)
    ensures ParseModern(k, d.version, EncModern(d) + t) == Done(d, t)
  {
    hide ParseFragment, EncFragment, ParseTransparent, EncTransparent, GoodTransparent, ParseSaplingV5, EncSaplingV5;
    hide GoodSaplingV5, ParseOrchard, EncOrchard, GoodOrchard, ParseExtra, EncExtra, BundleVersionForBranch;
    var transparent, sapling, orchard, extra :=
      EncTransparent(d.transparent), EncSaplingV5(d.sapling), EncOrchard(d.orchard), EncExtra(d);
    Regroup5(EncFragment(d), transparent, sapling, orchard, extra, t);
    FragmentRoundTrip(d, transparent + (sapling + (orchard + (extra + t))));
    TransparentRoundTrip(d.transparent, sapling + (orchard + (extra + t)));
    SaplingV5RoundTrip(k.curves, d.sapling, orchard + (extra + t));
    OrchardRoundTrip(k.pallas, BundleVersionForBranch(d.branch, OrchardPool), d.orchard, extra + t);
    ExtraRoundTrip(k, d, t);
  }

  lemma ExtraReencodes(k: Rules, d: TxData, s: Bytes)
    requires ParseExtra(k.pallas, d.version, d.branch, s).Done?
    requires ParseExtra(k.pallas, d.version, d.branch, s).value == (d.ironwood, d.staking)
    ensures if HasIronwood(d.version)
            then GoodOrchard(k.pallas, BundleVersionForBranch(d.branch, IronwoodPool), d.ironwood)
            else d.ironwood.None?
    ensures !HasCrosslink(d.version) ==> d.staking.None?
    ensures s == EncExtra(d) + ParseExtra(k.pallas, d.version, d.branch, s).rest
  {
    hide ParseOrchard, EncOrchard, GoodOrchard, ParseStaking, EncStaking, BundleVersionForBranch;
    if HasIronwood(d.version) {
      OrchardReencodes(k.pallas, BundleVersionForBranch(d.branch, IronwoodPool), s);
    } else if HasCrosslink(d.version) {
      StakingReencodes(s);
    } else {
      assert [] + s == s;
    }
  }

  lemma ModernReencodes(k: Rules, v: TxVersion, s: Bytes)
    requires ParseModern(k, v, s).Done?
    ensures var d := ParseModern(k, v, s).value;
      d.version == v && GoodModern(k, d) && s == EncModern(d) + ParseModern(k, v, s).rest
  {
    hide ParseFragment, EncFragment, ParseTransparent, EncTransparent, GoodTransparent, ParseSaplingV5, EncSaplingV5;
    hide GoodSaplingV5, ParseOrchard, EncOrchard, GoodOrchard, ParseExtra, EncExtra, BundleVersionForBranch;
    var d, t := ParseModern(k, v, s).value, ParseModern(k, v, s).rest;
    var s1 := ParseFragment(s).rest;
    var s2 := ParseTransparent(s1).rest;
    var s3 := ParseSaplingV5(k.curves, s2).rest;
    var orchardVersion := BundleVersionForBranch(d.branch, OrchardPool);
    var s4 := ParseOrchard(k.pallas, orchardVersion, s3).rest;
    FragmentReencodes(d, s);
    TransparentReencodes(s1);
    SaplingV5Reencodes(k.curves, s2);
    OrchardReencodes(k.pallas, orchardVersion, s3);
    ExtraReencodes(k, d, s4);
    Regroup5(EncFragment(d), EncTransparent(d.transparent), EncSaplingV5(d.sapling), EncOrchard(d.orchard),
             EncExtra(d), t);
  }

  //////////////////////////////////////////////////////////////////////////////
  // All formats
  //////////////////////////////////////////////////////////////////////////////

  /** The bytes a transaction is written as, if its writer does not refuse it. */
  function TxBytes(d: TxData): Result<Bytes> {
    match d.version
    case V5 =>
      if d.sprout.Some? then Failure(InvalidInput) else Success(EncVersion(d.version) + EncModern(d))
    case V6 =>
      if d.sprout.Some? then Failure(InvalidInput)
      else if d.orchard.Some? && !FitsV6(d.orchard.value.version) then Failure(InvalidInput)
      else if d.ironwood.Some? && !FitsV6(d.ironwood.value.version) then Failure(InvalidInput)
      else Success(EncVersion(d.version) + EncModern(d))
    case VCrosslink =>
      if d.sprout.Some? || d.ironwood.Some? then Failure(InvalidInput)
      else Success(EncVersion(d.version) + EncModern(d))
    case _ =>
      if d.orchard.Some? then Failure(InvalidInput)
      else if !HasSapling(d.version) && d.sapling.Some? then Failure(InvalidInput)
      else Success(EncVersion(d.version) + EncLegacy(d, 0))
  }

  function ParseTx(k: Rules, branch: BranchId, s: Bytes): Parsed<LegacyRead> {
    var (v, s) :- ParseVersion(s);
    if Legacy(v) then ParseLegacy(k, v, branch, s)
    else
      var (d, s) :- ParseModern(k, v, s);
      Done(LegacyRead(d, 0), s)
  }

  /** What some reader can produce. */
  predicate Readable(k: Rules, d: TxData) {
    GoodVersion(d.version) && if Legacy(d.version) then GoodLegacy(k, d) else GoodModern(k, d)
  }

  /** A v6 Orchard slot can only be written under a branch that has v6. */
  predicate V6SlotsFit(d: TxData) {
    d.version.V6? && d.orchard.Some? ==> FitsV6(d.orchard.value.version)
  }

  /**
   * Components only where the version carries them, in lists a reader accepts, the Sprout bundle
   * not empty, and Orchard and Ironwood bundles of the version that the branch selects.
   */
  predicate WellFormed(k: Rules, d: TxData) {
    Readable(k, d) && V6SlotsFit(d)
  }

  /** What each writer refuses, and nothing else. */
  lemma RefusedExactly(d: TxData)
    ensures TxBytes(d) == Failure(InvalidInput) <==>
      match d.version
      case V5 => d.sprout.Some?
      case V6 =>
        || d.sprout.Some?
        || (d.orchard.Some? && d.orchard.value.version !in {OrchardV3, IronwoodV3})
        || (d.ironwood.Some? && d.ironwood.value.version !in {OrchardV3, IronwoodV3})
      case VCrosslink => d.sprout.Some? || d.ironwood.Some?
      case V4 => d.orchard.Some?
      case _ => d.orchard.Some? || d.sapling.Some?
    ensures TxBytes(d).Failure? ==> TxBytes(d) == Failure(InvalidInput)
  {
    hide EncVersion, EncModern, EncLegacy;
  }

  /** Every writer accepts every well-formed transaction. */
  lemma WellFormedIsWritten(k: Rules, d: TxData)
    requires WellFormed(k, d)
    ensures TxBytes(d).Success?
  {
    hide GoodBodies, GoodData, GoodSapling, GoodTransparent, GoodSaplingV5;
  }

  /** Every well-formed transaction is read back as written, leaving exactly the trailer. */
  lemma TxRoundTrip(k: Rules, d: TxData, branch: BranchId, t: Bytes)
    requires WellFormed(k, d) && (Legacy(d.version) ==> branch == d.branch)
    ensures TxBytes(d).Success?
    ensures ParseTx(k, branch, TxBytes(d).value + t) == Done(LegacyRead(d, 0), t)
  {
    WellFormedIsWritten(k, d);
    hide ParseVersion, EncVersion, ParseLegacy, EncLegacy, ParseModern, EncModern, GoodLegacy, GoodModern;
    var body := if Legacy(d.version) then EncLegacy(d, 0) else EncModern(d);
    Regroup2(EncVersion(d.version), body, t);
    VersionRoundTrip(d.version, body + t);
    if Legacy(d.version) {
      LegacyRoundTrip(k, d, 0, t);
    } else {
      ModernRoundTrip(k, d, t);
    }
  }

  /** What a reader returns is readable, and the bytes it took are determined by it and the slot. */
  lemma TxReencodes(k: Rules, branch: BranchId, s: Bytes)
    requires ParseTx(k, branch, s).Done?
    ensures var p := ParseTx(k, branch, s);
      && Readable(k, p.value.data)
      && (Legacy(p.value.data.version) ==> p.value.data.branch == branch)
      && (p.value.slot == 0 || (p.value.data.version.V4? && p.value.data.sapling.None?))
      && s == EncVersion(p.value.data.version)
              + (if Legacy(p.value.data.version) then EncLegacy(p.value.data, p.value.slot)
                 else EncModern(p.value.data))
              + p.rest
  {
    hide ParseLegacy, EncLegacy, ParseModern, EncModern, GoodLegacy, GoodModern, EncVersion, ParseVersion;
    var v, u := ParseVersion(s).value, ParseVersion(s).rest;
    VersionReencodes(s);
    if Legacy(v) {
      LegacyReencodes(k, v, branch, u);
      var p := ParseLegacy(k, v, branch, u);
      Regroup2(EncVersion(v), EncLegacy(p.value.data, p.value.slot), p.rest);
    } else {
      ModernReencodes(k, v, u);
      var p := ParseModern(k, v, u);
      Regroup2(EncVersion(v), EncModern(p.value), p.rest);
    }
  }

  /** A written transaction is read back as it was exactly when it is well formed: nothing was dropped. */
  lemma OnlyWellFormedSurvive(k: Rules, d: TxData, branch: BranchId, t: Bytes)
    requires TxBytes(d).Success?
    ensures (exists slot :: ParseTx(k, branch, TxBytes(d).value + t) == Done(LegacyRead(d, slot), t))
            <==> WellFormed(k, d) && (Legacy(d.version) ==> branch == d.branch)
  {
    if WellFormed(k, d) && (Legacy(d.version) ==> branch == d.branch) {
      TxRoundTrip(k, d, branch, t);
    }
    if slot :| ParseTx(k, branch, TxBytes(d).value + t) == Done(LegacyRead(d, slot), t) {
      TxReencodes(k, branch, TxBytes(d).value + t);
    }
  }

  /** Reading and writing again gives the bytes that were read, exactly when the slot was zero and the format fits. */
  lemma RewrittenBytes(k: Rules, branch: BranchId, s: Bytes)
    requires ParseTx(k, branch, s).Done?
    ensures var p := ParseTx(k, branch, s); var d := p.value.data;
      && (TxBytes(d).Success? <==> V6SlotsFit(d))
      && (TxBytes(d).Success? ==> (TxBytes(d).value + p.rest == s <==> p.value.slot == 0))
  {
    hide ParseTx, Readable, TxBytes, EncLegacy, EncModern, EncVersion;
    TxReencodes(k, branch, s);
    var p := ParseTx(k, branch, s);
    var d := p.value.data;
    WrittenWhenSlotsFit(k, d);
    if TxBytes(d).Success? {
      WrittenShape(d);
      if Legacy(d.version) && TxBytes(d).value + p.rest == s {
        SlotIsWritten(d, p.value.slot, 0, p.rest);
      }
    }
  }

  /** What only the v6 reader allows: an Orchard bundle from before v6 is read, and the writer refuses it. */
  lemma V6ReadButRefused(k: Rules, branch: BranchId, d: TxData, t: Bytes)
    requires d.version.V6? && Readable(k, d) && !V6SlotsFit(d)
    ensures ParseTx(k, branch, EncVersion(V6) + EncModern(d) + t) == Done(LegacyRead(d, 0), t)
    ensures TxBytes(d) == Failure(InvalidInput)
  {
    hide ParseVersion, EncVersion, ParseModern, EncModern, GoodModern;
    Regroup2(EncVersion(V6), EncModern(d), t);
    VersionRoundTrip(V6, EncModern(d) + t);
    ModernRoundTrip(k, d, t);
  }

  /** Such a transaction: any Orchard bundle of the branches from NU5 to NU6.2, alone in a v6 transaction. */
  function EarlyOrchardInV6(branch: BranchId, b: OrchardBundle): TxData {
    TxData(V6, branch, 0, 0, None, None, None, Some(b), None, None)
  }

  lemma EarlyOrchardIsRefused(k: Rules, branch: BranchId, b: OrchardBundle, t: Bytes)
    requires OrchardActive(branch) && !branch.Nu6_3Branch?
    requires GoodOrchard(k.pallas, BundleVersionForBranch(branch, OrchardPool), Some(b))
    ensures var d := EarlyOrchardInV6(branch, b);
      && ParseTx(k, branch, EncVersion(V6) + EncModern(d) + t) == Done(LegacyRead(d, 0), t)
      && TxBytes(d) == Failure(InvalidInput)
  {
    var d := EarlyOrchardInV6(branch, b);
    assert Readable(k, d) && !V6SlotsFit(d) by {
      hide GoodBodies, GoodData, ParseTx, TxBytes;
    }
    hide ParseTx, TxBytes, Readable, V6SlotsFit;
    V6ReadButRefused(k, branch, d, t);
  }

  /** One such input: a single action, all of zeros, under rules that accept every encoding. */
  lemma OneEarlyOrchardIsRefused(t: Bytes) returns (k: Rules, d: TxData)
    ensures d.version.V6? && d.branch.Nu5Branch?
    ensures ParseTx(k, Nu5Branch, EncVersion(V6) + EncModern(d) + t) == Done(LegacyRead(d, 0), t)
    ensures TxBytes(d) == Failure(InvalidInput)
  {
    var any := (b: Bytes) => true;
    k := Rules(Curves(any, any, any, any),
               Pallas(any, any, any, any, any, (a: ActionBody) => true, (v: BundleVersion, f: byte) => true,
                      (b: OrchardBundle) => true));
    var body := ActionBody(Zeros(32), Zeros(32), Zeros(32), Zeros(32), Zeros(32), Zeros(580), Zeros(80));
    var b := OrchardBundle([Action(body, Zeros(64))], 3, 0, Zeros(32), [], Zeros(64), OrchardInsecureV1);
    d := EarlyOrchardInV6(Nu5Branch, b);
    hide ParseTx, TxBytes;
    EarlyOrchardIsRefused(k, Nu5Branch, b, t);
  }

  lemma WrittenShape(d: TxData)
    requires TxBytes(d).Success?
    ensures TxBytes(d).value == EncVersion(d.version) + (if Legacy(d.version) then EncLegacy(d, 0) else EncModern(d))
  {
  }

  lemma WrittenWhenSlotsFit(k: Rules, d: TxData)
    requires Readable(k, d)
    ensures TxBytes(d).Success? <==> V6SlotsFit(d)
  {
    hide GoodBodies, GoodData, GoodSapling, GoodTransparent, GoodSaplingV5;
  }

  /** The dead slot is on the wire. */
  lemma SlotIsWritten(d: TxData, a: ZatBalance, b: ZatBalance, t: Bytes)
    requires Legacy(d.version) && (a == b || (d.version.V4? && d.sapling.None?))
    requires EncVersion(d.version) + EncLegacy(d, a) + t == EncVersion(d.version) + EncLegacy(d, b) + t
    ensures a == b
  {
    if a != b {
      hide EncTransparent, EncLocks, EncSprout, EncVector, EncBalance, EncVersion;
      var front := EncVersion(d.version) + (EncTransparent(d.transparent) + EncLocks(d));
      var back := EncVector([], EncSpendV4)
        + (EncVector([], EncOutputV4) + (EncLegacySprout(d) + (EncBindingSig(d) + t)));
      SlotInContext(d, a, t);
      SlotInContext(d, b, t);
      var x, y := EncBalance(a), EncBalance(b);
      assert (front + (x + back))[|front|..] == x + back && (front + (y + back))[|front|..] == y + back;
      BalanceRoundTrip(a, back);
      BalanceRoundTrip(b, back);
    }
  }

  lemma SlotInContext(d: TxData, a: ZatBalance, t: Bytes)
    requires d.version.V4? && d.sapling.None?
    ensures EncVersion(d.version) + EncLegacy(d, a) + t ==
            EncVersion(d.version) + (EncTransparent(d.transparent) + EncLocks(d))
            + (EncBalance(a) + (EncVector([], EncSpendV4)
                                + (EncVector([], EncOutputV4) + (EncLegacySprout(d) + (EncBindingSig(d) + t)))))
  {
    hide EncTransparent, EncLocks, EncSprout, EncVector, EncBalance, EncVersion;
    var spends, outputs := EncVector([], EncSpendV4), EncVector([], EncOutputV4);
    var sapling, sprout, sig := EncBalance(a) + spends + outputs, EncLegacySprout(d), EncBindingSig(d);
    var front := EncTransparent(d.transparent) + EncLocks(d);
    assert EncLegacySapling(d, a) == sapling;
    Regroup2(EncVersion(d.version), EncLegacy(d, a), t);
    Regroup4(front, sapling, sprout, sig, t);
    Regroup3(EncBalance(a), spends, outputs, sprout + (sig + t));
    Regroup2(EncVersion(d.version), front, EncBalance(a) + (spends + (outputs + (sprout + (sig + t)))));
  }
}
