/** The transaction readers and writers, step by step. */
module TransactionIo {
  import opened ByteStrings
  import opened Io
  import opened Orchard
  import opened Sapling
  import opened Schedules
  import opened Sprout
  import opened Staking
  import opened Transactions
  import opened Transparent
  import opened TxVersions

  //////////////////////////////////////////////////////////////////////////////
  // Readers
  //////////////////////////////////////////////////////////////////////////////

  /** `read_v4`, which also reads the earlier formats. */
  method ReadLegacy(r: Reader, k: Rules, v: TxVersion, branch: BranchId) returns (res: Result<LegacyRead>)
    modifies r
    ensures Follows(ParseLegacy(k, v, branch, old(r.rest)), res, r.rest)
  {
    hide ParseTransparent, ParseU32, ParseComponentsV4, ParseSprout;
    var transparent :- ReadTransparent(r);
    var lockTime :- r.ReadU32();
    var expiry: u32 := 0;
    if HasOverwinter(v) {
      expiry :- r.ReadU32();
    }
    var c := ComponentsV4(0, [], []);
    if HasSapling(v) {
      c :- ReadComponentsV4(r, k.curves);
    }
    var sprout := None;
    if HasSprout(v) {
      sprout :- ReadSprout(r, HasSapling(v));
    }
    var sapling := None;
    if HasSapling(v) && !(c.spends == [] && c.outputs == []) {
      var sig :- r.ReadExact(64);
      sapling := Some(SaplingBundle(c.spends, c.outputs, c.balance, sig));
    }
    var data := TxData(v, branch, lockTime, expiry, transparent, sprout, sapling, None, None, None);
    res := Success(LegacyRead(data, if sapling.None? then c.balance else 0));
  }

  method ReadFragment(r: Reader) returns (res: Result<(BranchId, u32, u32)>)
    modifies r
    ensures Follows(ParseFragment(old(r.rest)), res, r.rest)
  {
    hide ParseU32, BranchFromU32;
    var word :- r.ReadU32();
    match BranchFromU32(word) {
      case None =>
        res := Failure(InvalidData);
      case Some(branch) =>
        var lockTime :- r.ReadU32();
        var expiry :- r.ReadU32();
        res := Success((branch, lockTime, expiry));
    }
  }

  method ReadV5(r: Reader, k: Rules) returns (res: Result<TxData>)
    modifies r
    ensures Follows(ParseModern(k, V5, old(r.rest)), res, r.rest)
  {
    hide ParseFragment, ParseTransparent, ParseSaplingV5, ParseOrchard, BundleVersionForBranch;
    var h :- ReadFragment(r);
    var transparent :- ReadTransparent(r);
    var sapling :- ReadSaplingV5(r, k.curves);
    var orchard :- ReadOrchard(r, k.pallas, BundleVersionForBranch(h.0, OrchardPool));
    res := Success(TxData(V5, h.0, h.1, h.2, transparent, None, sapling, orchard, None, None));
  }

  method ReadV6(r: Reader, k: Rules) returns (res: Result<TxData>)
    modifies r
    ensures Follows(ParseModern(k, V6, old(r.rest)), res, r.rest)
  {
    hide ParseFragment, ParseTransparent, ParseSaplingV5, ParseOrchard, BundleVersionForBranch;
    var h :- ReadFragment(r);
    var transparent :- ReadTransparent(r);
    var sapling :- ReadSaplingV5(r, k.curves);
    var orchard :- ReadOrchard(r, k.pallas, BundleVersionForBranch(h.0, OrchardPool));
    var ironwood :- ReadOrchard(r, k.pallas, BundleVersionForBranch(h.0, IronwoodPool));
    res := Success(TxData(V6, h.0, h.1, h.2, transparent, None, sapling, orchard, ironwood, None));
  }

  method ReadVCrosslink(r: Reader, k: Rules) returns (res: Result<TxData>)
    modifies r
    ensures Follows(ParseModern(k, VCrosslink, old(r.rest)), res, r.rest)
  {
    hide ParseFragment, ParseTransparent, ParseSaplingV5, ParseOrchard, ParseStaking, BundleVersionForBranch;
    var h :- ReadFragment(r);
    var transparent :- ReadTransparent(r);
    var sapling :- ReadSaplingV5(r, k.curves);
    var orchard :- ReadOrchard(r, k.pallas, BundleVersionForBranch(h.0, OrchardPool));
    var staking :- ReadStaking(r);
    res := Success(TxData(VCrosslink, h.0, h.1, h.2, transparent, None, sapling, orchard, None, staking));
  }

  method ReadTx(r: Reader, k: Rules, branch: BranchId) returns (res: Result<LegacyRead>)
    modifies r
    ensures Follows(ParseTx(k, branch, old(r.rest)), res, r.rest)
  {
    hide ParseVersion, ParseLegacy, ParseModern;
    var v :- ReadVersion(r);
    match v {
      case V5 =>
        var d :- ReadV5(r, k);
        res := Success(LegacyRead(d, 0));
      case V6 =>
        var d :- ReadV6(r, k);
        res := Success(LegacyRead(d, 0));
      case VCrosslink =>
        var d :- ReadVCrosslink(r, k);
        res := Success(LegacyRead(d, 0));
      case _ =>
        res := ReadLegacy(r, k, v, branch);
    }
  }

  //////////////////////////////////////////////////////////////////////////////
  // Writers
  //////////////////////////////////////////////////////////////////////////////

  /** A writing method appended what it should, or failed as it should. */
  ghost predicate Wrote(spec: Result<Bytes>, res: Result<()>, before: Bytes, after: Bytes) {
    match spec
    case Success(b) => res == Success(()) && after == before + b
    case Failure(e) => res == Failure(e)
  }

  method WriteLegacySapling(w: Writer, d: TxData) returns (res: Result<()>)
    modifies w
    ensures res == if !HasSapling(d.version) && d.sapling.Some? then Failure(InvalidInput) else Success(())
    ensures res.Success? ==> w.buf == old(w.buf) + EncLegacySapling(d, 0)
  {
    hide EncComponentsV4;
    if HasSapling(d.version) {
      WriteComponentsV4(w, ComponentsOf(d.sapling, 0));
    } else if d.sapling.Some? {
      return Failure(InvalidInput);
    }
    res := Success(());
  }

  method WriteV4(w: Writer, d: TxData) returns (res: Result<()>)
    requires Legacy(d.version)
    modifies w
    ensures Wrote(TxBytes(d), res, old(w.buf), w.buf)
  {
    hide EncVersion, EncTransparent, LE, EncSprout, EncLegacySapling;
    if d.orchard.Some? {
      return Failure(InvalidInput);
    }
    WriteVersion(w, d.version);
    ghost var start := w.buf;
    WriteTransparent(w, d.transparent);
    ghost var before := w.buf;
    w.WriteAll(LE(d.lockTime, 4));
    if HasOverwinter(d.version) {
      w.WriteAll(LE(d.expiry, 4));
      Regroup2(before, LE(d.lockTime, 4), LE(d.expiry, 4));
    }
    assert w.buf == before + EncLocks(d);
    var _ :- WriteLegacySapling(w, d);
    if HasSprout(d.version) {
      WriteSprout(w, d.sprout);
    }
    if HasSapling(d.version) && d.sapling.Some? {
      w.WriteAll(d.sapling.value.bindingSig);
    }
    LegacyWritten(w.buf, start, d);
    Regroup2(old(w.buf), EncVersion(d.version), EncLegacy(d, 0));
    res := Success(());
  }

  lemma LegacyWritten(buf: Bytes, start: Bytes, d: TxData)
    requires buf == start + EncTransparent(d.transparent) + EncLocks(d) + EncLegacySapling(d, 0)
                    + EncLegacySprout(d) + EncBindingSig(d)
    ensures buf == start + EncLegacy(d, 0)
  {
    hide EncTransparent, EncLocks, EncLegacySapling, EncLegacySprout, EncBindingSig;
    Regroup5(start, EncTransparent(d.transparent), EncLocks(d), EncLegacySapling(d, 0), EncLegacySprout(d),
             EncBindingSig(d));
    Regroup4(EncTransparent(d.transparent), EncLocks(d), EncLegacySapling(d, 0), EncLegacySprout(d), EncBindingSig(d));
  }

  /** The header of every format from v5 on. */
  method WriteModernHeader(w: Writer, d: TxData)
    modifies w
    ensures w.buf == old(w.buf) + EncVersion(d.version) + EncFragment(d)
  {
    hide LE, EncVersion;
    WriteVersion(w, d.version);
    w.WriteAll(LE(BranchToU32(d.branch), 4));
    w.WriteAll(LE(d.lockTime, 4));
    w.WriteAll(LE(d.expiry, 4));
    Regroup3(old(w.buf) + EncVersion(d.version), LE(BranchToU32(d.branch), 4), LE(d.lockTime, 4), LE(d.expiry, 4));
    Regroup2(LE(BranchToU32(d.branch), 4), LE(d.lockTime, 4), LE(d.expiry, 4));
  }

  lemma ModernWritten(buf: Bytes, start: Bytes, d: TxData)
    requires buf == start + EncVersion(d.version) + EncFragment(d) + EncTransparent(d.transparent)
                    + EncSaplingV5(d.sapling) + EncOrchard(d.orchard) + EncExtra(d)
    ensures buf == start + (EncVersion(d.version) + EncModern(d))
  {
    hide EncVersion, EncFragment, EncTransparent, EncSaplingV5, EncOrchard, EncExtra;
    var a := start + EncVersion(d.version);
    Regroup5(a, EncFragment(d), EncTransparent(d.transparent), EncSaplingV5(d.sapling), EncOrchard(d.orchard),
             EncExtra(d));
    Regroup4(EncFragment(d), EncTransparent(d.transparent), EncSaplingV5(d.sapling), EncOrchard(d.orchard),
             EncExtra(d));
    Regroup2(start, EncVersion(d.version), EncModern(d));
  }

  method WriteV5(w: Writer, d: TxData) returns (res: Result<()>)
    requires d.version.V5?
    modifies w
    ensures Wrote(TxBytes(d), res, old(w.buf), w.buf)
  {
    hide EncVersion, EncFragment, EncTransparent, EncSaplingV5, EncOrchard, EncModern;
    if d.sprout.Some? {
      return Failure(InvalidInput);
    }
    WriteModernHeader(w, d);
    WriteTransparent(w, d.transparent);
    WriteSaplingV5(w, d.sapling);
    WriteOrchard(w, d.orchard);
    ModernWritten(w.buf, old(w.buf), d);
    res := Success(());
  }

  method WriteV6(w: Writer, d: TxData) returns (res: Result<()>)
    requires d.version.V6?
    modifies w
    ensures Wrote(TxBytes(d), res, old(w.buf), w.buf)
  {
    hide EncVersion, EncFragment, EncTransparent, EncSaplingV5, EncOrchard, EncModern;
    if d.sprout.Some? {
      return Failure(InvalidInput);
    }
    WriteModernHeader(w, d);
    WriteTransparent(w, d.transparent);
    WriteSaplingV5(w, d.sapling);
    var _ :- WriteOrchardV6(w, d.orchard);
    var _ :- WriteOrchardV6(w, d.ironwood);
    ModernWritten(w.buf, old(w.buf), d);
    res := Success(());
  }

  method WriteVCrosslink(w: Writer, d: TxData) returns (res: Result<()>)
    requires d.version.VCrosslink?
    modifies w
    ensures Wrote(TxBytes(d), res, old(w.buf), w.buf)
  {
    hide EncVersion, EncFragment, EncTransparent, EncSaplingV5, EncOrchard, EncStaking, EncModern;
    if d.sprout.Some? {
      return Failure(InvalidInput);
    }
    if d.ironwood.Some? {
      return Failure(InvalidInput);
    }
    WriteModernHeader(w, d);
    WriteTransparent(w, d.transparent);
    WriteSaplingV5(w, d.sapling);
    WriteOrchard(w, d.orchard);
    WriteStaking(w, d.staking);
    ModernWritten(w.buf, old(w.buf), d);
    res := Success(());
  }

  method WriteTx(w: Writer, d: TxData) returns (res: Result<()>)
    modifies w
    ensures Wrote(TxBytes(d), res, old(w.buf), w.buf)
  {
    match d.version {
      case V5 =>
        res := WriteV5(w, d);
      case V6 =>
        res := WriteV6(w, d);
      case VCrosslink =>
        res := WriteVCrosslink(w, d);
      case _ =>
        res := WriteV4(w, d);
    }
  }
}
