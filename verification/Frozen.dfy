/** Transactions with their identifiers: freezing, reading, and when the two agree. */
module Frozen {
  import opened ByteStrings
  import opened Io
  import opened Schedules
  import opened Transactions
  import opened TransactionIo
  import opened TxBuilder
  import opened TxDigests
  import opened TxVersions
  import opened Values

  datatype Transaction = Transaction(txid: Bytes32, data: TxData)

  /** The hash functions and commitments behind identifiers; nothing is assumed about them. */
  datatype Hashes = Hashes(sha256d: Bytes -> Bytes32, blake2b: Blake2b, orchard: Commitments)

  /** Up to v4 the identifier hashes what is written; from v5 on it hashes the data. */
  function Freeze(e: Hashes, d: TxData): Result<Transaction> {
    if Legacy(d.version) then
      match TxBytes(d)
      case Success(b) => Success(Transaction(e.sha256d(b), d))
      case Failure(error) => Failure(error)
    else Success(Transaction(Txid(e.blake2b, e.orchard, d), d))
  }

  /** The front of `s` that is not in its remainder `t`. */
  function Consumed(s: Bytes, t: Bytes): Bytes {
    if |t| <= |s| then s[..|s| - |t|] else []
  }

  /** Up to v4 the identifier hashes what was read. */
  function Identified(e: Hashes, d: TxData, consumed: Bytes): Transaction {
    Transaction(if Legacy(d.version) then e.sha256d(consumed) else Txid(e.blake2b, e.orchard, d), d)
  }

  function ParseTransaction(e: Hashes, k: Rules, branch: BranchId, s: Bytes): Parsed<Transaction> {
    var (p, t) :- ParseTx(k, branch, s);
    Done(Identified(e, p.data, Consumed(s, t)), t)
  }

  lemma ConsumedFront(b: Bytes, t: Bytes)
    ensures Consumed(b + t, t) == b
  {
  }

  /** Writing and reading a well-formed transaction gives the same data and the same identifier. */
  lemma FrozenRoundTrip(e: Hashes, k: Rules, d: TxData, branch: BranchId, t: Bytes)
    requires WellFormed(k, d) && (Legacy(d.version) ==> branch == d.branch)
    ensures TxBytes(d).Success? && Freeze(e, d).Success?
    ensures ParseTransaction(e, k, branch, TxBytes(d).value + t) == Done(Freeze(e, d).value, t)
  {
    TxRoundTrip(k, d, branch, t);
    ConsumedFront(TxBytes(d).value, t);
    hide ParseTx, TxBytes, Txid, WellFormed;
  }

  /**
   * Freezing what was read gives the identifier that was read, unless the dead value balance slot of
   * a v4 transaction without Sapling parts was not zero; then what was read and what is written are
   * different strings, and the identifiers agree only if those two collide.
   */
  lemma ReadIdentifierIsFrozen(e: Hashes, k: Rules, branch: BranchId, s: Bytes, d: TxData, slot: ZatBalance, t: Bytes)
    requires ParseTx(k, branch, s) == Done(LegacyRead(d, slot), t)
    ensures Freeze(e, d).Success?
    ensures slot == 0 ==> Freeze(e, d).value == Identified(e, d, Consumed(s, t))
    ensures slot != 0 ==>
              && Legacy(d.version) && TxBytes(d).Success? && Consumed(s, t) != TxBytes(d).value
              && (Freeze(e, d).value == Identified(e, d, Consumed(s, t)) <==>
                  e.sha256d(Consumed(s, t)) == e.sha256d(TxBytes(d).value))
  {
    RewrittenBytes(k, branch, s);
    TxReencodes(k, branch, s);
    hide ParseTx, TxBytes, Txid, Readable, EncVersion, EncLegacy, EncModern;
    if Legacy(d.version) {
      ConsumedFront(EncVersion(d.version) + EncLegacy(d, slot), t);
      ConsumedFront(TxBytes(d).value, t);
    }
  }

  /** Any value in that slot reads as the same data: one transaction, many byte strings and identifiers. */
  lemma DeadSlotTwins(k: Rules, d: TxData, slot: ZatBalance, t: Bytes)
    requires WellFormed(k, d) && d.version.V4? && d.sapling.None?
    ensures ParseTx(k, d.branch, EncVersion(V4) + EncLegacy(d, slot) + t) == Done(LegacyRead(d, slot), t)
    ensures slot != 0 ==> EncVersion(V4) + EncLegacy(d, slot) + t != TxBytes(d).value + t
  {
    hide ParseVersion, EncVersion, ParseLegacy, EncLegacy, GoodLegacy, TxBytes;
    Regroup2(EncVersion(V4), EncLegacy(d, slot), t);
    VersionRoundTrip(V4, EncLegacy(d, slot) + t);
    LegacyRoundTrip(k, d, slot, t);
    WellFormedIsWritten(k, d);
    WrittenShape(d);
    if EncVersion(V4) + EncLegacy(d, slot) + t == TxBytes(d).value + t {
      SlotIsWritten(d, slot, 0, t);
    }
  }

  //////////////////////////////////////////////////////////////////////////////
  // Built transactions
  //////////////////////////////////////////////////////////////////////////////

  /** Freezing what a builder assembled fails exactly when a required Orchard bundle has no place. */
  lemma BuiltFreezes(e: Hashes, s: BuilderState, fee: Option<Zatoshis>, b: Bundles)
    requires Inv(s) && BuildChecks(s, fee).None? && Faithful(s, b)
    ensures Freeze(e, Assemble(s, b)).Failure? <==> OrchardPaddingLost(s)
    ensures BuildOutcome(s, fee, b).Built? <==> Freeze(e, Assemble(s, b)).Success? && !s.branch.SproutBranch?
  {
    WriterRefusesExactly(s, fee, b);
    PanicsExactly(s, fee, b);
    hide TxBytes, BuildChecks, Faithful, BuildOutcome;
  }

  /**
   * From the first call on a new builder to the bytes read by someone else: a build that passes its
   * checks outside the Sprout branch survives, if no required bundle is without a place.
   */
  lemma BuiltSurvives(e: Hashes, k: Rules, p: Schedule, target: u32, config: BuildConfig, calls: seq<BuilderCall>,
                      fee: Option<Zatoshis>, b: Bundles, t: Bytes)
    requires ProposesGoodVersions(calls) && SoundBundles(k, b) && !ForHeight(p, target).SproutBranch?
    requires var s := Run(New(p, target, config), calls);
      BuildChecks(s, fee).None? && Faithful(s, b) && !OrchardPaddingLost(s) && !IronwoodPaddingLost(s)
    ensures var s := Run(New(p, target, config), calls);
            var d := Assemble(s, b);
      && BuildOutcome(s, fee, b) == Built(d)
      && TxBytes(d).Success? && Freeze(e, d).Success?
      && ParseTransaction(e, k, ForHeight(p, target), TxBytes(d).value + t) == Done(Freeze(e, d).value, t)
  {
    RunKeepsInv(p, target, config, calls);
    EveryBuildIsWellFormed(p, target, config, calls, k, fee, b);
    hide New, Run, BuildChecks, Faithful, SoundBundles, WellFormed, TxBytes, Freeze, ParseTransaction, ForHeight;
    hide BuildOutcome;
    FrozenRoundTrip(e, k, Assemble(Run(New(p, target, config), calls), b), ForHeight(p, target), t);
  }

  //////////////////////////////////////////////////////////////////////////////
  // Methods
  //////////////////////////////////////////////////////////////////////////////

  method FreezeTransaction(e: Hashes, d: TxData) returns (res: Result<Transaction>)
    ensures res == Freeze(e, d)
  {
    hide TxBytes, Txid;
    if Legacy(d.version) {
      var w := new Writer();
      var _ :- WriteTx(w, d);
      assert [] + TxBytes(d).value == TxBytes(d).value;
      res := Success(Transaction(e.sha256d(w.buf), d));
    } else {
      var txid := ToTxid(e.blake2b, e.orchard, d);
      res := Success(Transaction(txid, d));
    }
  }

  method ReadTransaction(r: Reader, e: Hashes, k: Rules, branch: BranchId) returns (res: Result<Transaction>)
    modifies r
    ensures Follows(ParseTransaction(e, k, branch, old(r.rest)), res, r.rest)
  {
    hide ParseTx, Txid;
    var data := r.rest;
    var p :- ReadTx(r, k, branch);
    if Legacy(p.data.version) {
      res := Success(Transaction(e.sha256d(Consumed(data, r.rest)), p.data));
    } else {
      var txid := ToTxid(e.blake2b, e.orchard, p.data);
      res := Success(Transaction(txid, p.data));
    }
  }
}
