/** The transaction builder: its state machine, its balance check, and what a finished transaction pays. */
module TxBuilder {
  import opened ByteStrings
  import opened Io
  import opened Orchard
  import opened Sapling
  import opened Schedules
  import opened Sprout
  import opened Staking
  import opened Transactions
  import opened Transparent
  import opened TxVersions
  import opened Values
  import opened Zip317

  const DEFAULT_TX_EXPIRY_DELTA: int := 40

  datatype BundlePadding = BundlePadding(bundleRequired: bool, padToMinimum: Option<u8>)

  datatype BuildConfig =
    | Standard(saplingAnchor: Option<Bytes32>, orchardAnchor: Option<Bytes32>, ironwoodAnchor: Option<Bytes32>,
               orchardPadding: BundlePadding, ironwoodPadding: BundlePadding)
    | CrosslinkConfig(saplingAnchor: Option<Bytes32>, orchardAnchor: Option<Bytes32>, orchardPadding: BundlePadding)
    | CoinbaseConfig

  datatype PoolType = SaplingPoolType | OrchardPoolType

  datatype BuildError =
    | InsufficientFunds(missing: ZatBalance)
    | ChangeRequired(excess: ZatBalance)
    | FeeRefused
    | Balance(error: BalanceError)
    | PoolRefused
    | SaplingBuilderNotAvailable
    | OrchardBuilderNotAvailable
    | IronwoodBuilderNotAvailable
    | NoteVersionUnsupported
    | CoinbaseExpiryHeightMismatch(target: u32, expiry: u32)
    | TargetIncompatible(branch: BranchId, version: TxVersion, pool: Option<PoolType>)
    | StakingActionUnsupported(version: TxVersion)
    | CrosslinkConfigMismatch

  //////////////////////////////////////////////////////////////////////////////
  // State
  //////////////////////////////////////////////////////////////////////////////

  /** How a coin is spent; a P2SH input's length is known once its redeem script is. */
  datatype Spending = P2pkh | P2sh(length: Option<nat>)

  datatype Coin = Coin(outpoint: OutPoint, value: Zatoshis, spending: Spending)

  /** Values added to the Sapling builder. */
  datatype SaplingNotes = SaplingNotes(spends: seq<Zatoshis>, outputs: seq<Zatoshis>)

  datatype BundleType = Transactional(padding: BundlePadding) | CoinbaseBundle

  /** Values added to an Orchard or Ironwood builder. */
  datatype OrchardNotes = OrchardNotes(
    bundleType: BundleType, version: BundleVersion, spends: seq<Zatoshis>, outputs: seq<Zatoshis>,
    changes: seq<Zatoshis>)

  /** A bundle of dummies is built even when nothing was added. */
  predicate Required(n: OrchardNotes) {
    n.bundleType.Transactional? && n.bundleType.padding.bundleRequired
  }

  datatype BuilderState = BuilderState(
    version: TxVersion, branch: BranchId, config: BuildConfig, target: u32, expiry: u32, inputs: seq<Coin>,
    outputs: seq<TxOut>, sapling: Option<SaplingNotes>, orchard: Option<OrchardNotes>,
    orchardVersion: Option<BundleVersion>, ironwood: Option<OrchardNotes>, staking: Option<StakingAction>)

  function SaturatingAdd(a: u32, b: int): u32
    requires b >= 0
  {
    if a as int + b < 0x1_0000_0000 then a as int + b else 0xffff_ffff
  }

  function NewSapling(config: BuildConfig): Option<SaplingNotes> {
    if config.CoinbaseConfig? || config.saplingAnchor.Some? then Some(SaplingNotes([], [])) else None
  }

  /** A coinbase has no Orchard builder once cross-address transfers are disabled. */
  function NewOrchard(config: BuildConfig, v: BundleVersion): Option<OrchardNotes> {
    match config
    case CoinbaseConfig => if v.OrchardV3? then None else Some(OrchardNotes(CoinbaseBundle, v, [], [], []))
    case _ =>
      if config.orchardAnchor.Some? then Some(OrchardNotes(Transactional(config.orchardPadding), v, [], [], []))
      else None
  }

  function NewIronwood(config: BuildConfig): Option<OrchardNotes> {
    match config
    case Standard(_, _, anchor, _, padding) =>
      if anchor.Some? then Some(OrchardNotes(Transactional(padding), IronwoodV3, [], [], [])) else None
    case CoinbaseConfig => Some(OrchardNotes(CoinbaseBundle, IronwoodV3, [], [], []))
    case CrosslinkConfig(_, _, _) => None
  }

  function DefaultVersion(config: BuildConfig, branch: BranchId): TxVersion {
    if config.CrosslinkConfig? then VCrosslink else SuggestedForBranch(branch)
  }

  function New(p: Schedule, target: u32, config: BuildConfig): BuilderState {
    var branch := ForHeight(p, target);
    var version := DefaultVersion(config, branch);
    var bundleVersion := BundleVersionForBranch(branch, OrchardPool);
    var orchard := if bundleVersion.Some? then NewOrchard(config, bundleVersion.value) else None;
    BuilderState(
      version, branch, config, target,
      if config.CoinbaseConfig? then target else SaturatingAdd(target, DEFAULT_TX_EXPIRY_DELTA),
      [], [], NewSapling(config), orchard, if orchard.Some? then bundleVersion else None,
      if HasIronwood(version) then NewIronwood(config) else None, None)
  }

  predicate SaplingInUse(s: BuilderState) {
    s.sapling.Some? && !(s.sapling.value.spends == [] && s.sapling.value.outputs == [])
  }

  predicate NotesInUse(n: Option<OrchardNotes>) {
    n.Some? && !(n.value.spends == [] && n.value.outputs == [] && n.value.changes == [])
  }

  /**
   * Bundle versions follow the branch: an Orchard one from NU5 on, first the insecure one, then the fixed
   * one in NU6.2 only, and one that fits v6 exactly where v6 is valid; Ironwood's exactly there too.
   */
  lemma BundleVersionsFollowBranch(b: BranchId)
    ensures BundleVersionForBranch(b, OrchardPool).Some? <==> OrchardActive(b)
    ensures BundleVersionForBranch(b, OrchardPool) == Some(OrchardV2) <==> b.Nu6_2Branch?
    ensures ValidInBranch(V6, b) <==>
      BundleVersionForBranch(b, OrchardPool).Some? && FitsV6(BundleVersionForBranch(b, OrchardPool).value)
    ensures ValidInBranch(V6, b) <==> BundleVersionForBranch(b, IronwoodPool).Some?
  {
  }

  //////////////////////////////////////////////////////////////////////////////
  // Version checks
  //////////////////////////////////////////////////////////////////////////////

  /** `check_version_compatibility`: the first reason, in this order, why the version cannot be used. */
  function CheckVersion(s: BuilderState, v: TxVersion): Option<BuildError> {
    if HasCrosslink(v) != s.config.CrosslinkConfig? then Some(CrosslinkConfigMismatch)
    else if s.staking.Some? && !HasCrosslink(v) then Some(StakingActionUnsupported(v))
    else if !ValidInBranch(v, s.branch) then Some(TargetIncompatible(s.branch, v, None))
    else if !(HasSapling(v) && SaplingActive(s.branch)) && SaplingInUse(s) then
      Some(TargetIncompatible(s.branch, v, Some(SaplingPoolType)))
    else if !(HasOrchard(v) && OrchardActive(s.branch)) && NotesInUse(s.orchard) then
      Some(TargetIncompatible(s.branch, v, Some(OrchardPoolType)))
    else if !(HasIronwood(v) && s.branch.Nu6_3Branch?) && NotesInUse(s.ironwood) then
      Some(TargetIncompatible(s.branch, v, None))
    else None
  }

  function CheckCoinbaseExpiry(s: BuilderState): Option<BuildError> {
    if s.config.CoinbaseConfig? && s.expiry != s.target then Some(CoinbaseExpiryHeightMismatch(s.target, s.expiry))
    else None
  }

  //////////////////////////////////////////////////////////////////////////////
  // Calls
  //////////////////////////////////////////////////////////////////////////////

  /**
   * One call on a builder. `accepted` says whether the pool's own builder takes the note; its
   * checks of witnesses, keys and addresses are not part of this model.
   */
  datatype BuilderCall =
    | ProposeVersion(v: TxVersion)
    | WithExpiryHeight(height: u32)
    | AddSaplingSpend(value: Zatoshis, accepted: bool)
    | AddSaplingOutput(value: Zatoshis, accepted: bool)
    | AddOrchardSpend(value: Zatoshis, accepted: bool)
    | AddOrchardOutput(value: Zatoshis, accepted: bool)
    | AddOrchardChangeOutput(value: Zatoshis, accepted: bool)
    | AddIronwoodSpend(value: Zatoshis, noteIsV3: bool, accepted: bool)
    | AddIronwoodOutput(value: Zatoshis, accepted: bool)
    | AddTransparentInput(coin: Coin, accepted: bool)
    | AddTransparentOutput(out: TxOut, accepted: bool)
    | PutStakingAction(action: StakingAction)

  function AddToSapling(s: BuilderState, spends: seq<Zatoshis>, outputs: seq<Zatoshis>, accepted: bool)
    : (BuilderState, Option<BuildError>)
  {
    match s.sapling
    case None => (s, Some(SaplingBuilderNotAvailable))
    case Some(n) =>
      if accepted then (s.(sapling := Some(SaplingNotes(n.spends + spends, n.outputs + outputs))), None)
      else (s, Some(PoolRefused))
  }

  function Extended(n: OrchardNotes, spends: seq<Zatoshis>, outputs: seq<Zatoshis>, changes: seq<Zatoshis>)
    : OrchardNotes
  {
    n.(spends := n.spends + spends, outputs := n.outputs + outputs, changes := n.changes + changes)
  }

  function AddToOrchard(s: BuilderState, spends: seq<Zatoshis>, outputs: seq<Zatoshis>, changes: seq<Zatoshis>,
                        accepted: bool): (BuilderState, Option<BuildError>) {
    match s.orchard
    case None => (s, Some(OrchardBuilderNotAvailable))
    case Some(n) =>
      if accepted then (s.(orchard := Some(Extended(n, spends, outputs, changes))), None) else (s, Some(PoolRefused))
  }

  function AddToIronwood(s: BuilderState, spends: seq<Zatoshis>, outputs: seq<Zatoshis>, noteIsV3: bool, accepted: bool)
    : (BuilderState, Option<BuildError>)
  {
    match s.ironwood
    case None => (s, Some(IronwoodBuilderNotAvailable))
    case Some(n) =>
      if !noteIsV3 then (s, Some(NoteVersionUnsupported))
      else if accepted then (s.(ironwood := Some(Extended(n, spends, outputs, []))), None)
      else (s, Some(PoolRefused))
  }

  function Apply(s: BuilderState, c: BuilderCall): (BuilderState, Option<BuildError>) {
    match c
    case ProposeVersion(v) =>
      var e := CheckVersion(s, v);
      (if e.None? then s.(version := v) else s, e)
    case WithExpiryHeight(height) => (s.(expiry := height), None)
    case AddSaplingSpend(value, accepted) => AddToSapling(s, [value], [], accepted)
    case AddSaplingOutput(value, accepted) => AddToSapling(s, [], [value], accepted)
    case AddOrchardSpend(value, accepted) => AddToOrchard(s, [value], [], [], accepted)
    case AddOrchardOutput(value, accepted) => AddToOrchard(s, [], [value], [], accepted)
    case AddOrchardChangeOutput(value, accepted) => AddToOrchard(s, [], [], [value], accepted)
    case AddIronwoodSpend(value, noteIsV3, accepted) => AddToIronwood(s, [value], [], noteIsV3, accepted)
    case AddIronwoodOutput(value, accepted) => AddToIronwood(s, [], [value], true, accepted)
    case AddTransparentInput(coin, accepted) =>
      if accepted then (s.(inputs := s.inputs + [coin]), None) else (s, Some(PoolRefused))
    case AddTransparentOutput(out, accepted) =>
      if accepted then (s.(outputs := s.outputs + [out]), None) else (s, Some(PoolRefused))
    case PutStakingAction(a) =>
      if HasCrosslink(s.version) then (s.(staking := Some(a)), None) else (s, Some(StakingActionUnsupported(s.version)))
  }

  /** The state after a run of calls, failed ones included. */
  function Run(s: BuilderState, calls: seq<BuilderCall>): BuilderState {
    if calls == [] then s else Apply(Run(s, calls[..|calls| - 1]), calls[|calls| - 1]).0
  }

  /** What holds of a new builder and is kept by every call. */
  predicate Inv(s: BuilderState) {
    && HasCrosslink(s.version) == s.config.CrosslinkConfig?
    && (s.staking.Some? ==> HasCrosslink(s.version))
    && (s.orchard.Some? ==>
          Some(s.orchard.value.version) == BundleVersionForBranch(s.branch, OrchardPool) == s.orchardVersion)
    && (s.config.CoinbaseConfig? && s.branch.Nu6_3Branch? ==> s.orchard.None?)
    && (s.ironwood.Some? ==>
          s.ironwood.value.version == IronwoodV3 && s.branch.Nu6_3Branch? && !s.config.CrosslinkConfig?)
  }

  /** The padding a builder was configured with. */
  predicate PaddingKept(s: BuilderState) {
    && (s.orchard.Some? ==>
          s.orchard.value.bundleType
          == if s.config.CoinbaseConfig? then CoinbaseBundle else Transactional(s.config.orchardPadding))
    && (s.ironwood.Some? && !s.config.CrosslinkConfig? ==>
          s.ironwood.value.bundleType
          == if s.config.CoinbaseConfig? then CoinbaseBundle else Transactional(s.config.ironwoodPadding))
  }

  lemma NewKeepsInv(p: Schedule, target: u32, config: BuildConfig)
    ensures Inv(New(p, target, config)) && PaddingKept(New(p, target, config))
  {
    hide ForHeight;
  }

  lemma ApplyKeepsInv(s: BuilderState, c: BuilderCall)
    requires Inv(s) && PaddingKept(s)
    ensures Inv(Apply(s, c).0) && PaddingKept(Apply(s, c).0)
    ensures Apply(s, c).0.config == s.config && Apply(s, c).0.branch == s.branch && Apply(s, c).0.target == s.target
  {
  }

  /** Over every run: crosslink version and crosslink configuration go together, and so does the rest. */
  lemma {:induction false} RunKeepsInv(p: Schedule, target: u32, config: BuildConfig, calls: seq<BuilderCall>)
    ensures var s := Run(New(p, target, config), calls);
      Inv(s) && PaddingKept(s) && s.config == config && s.branch == ForHeight(p, target) && s.target == target
  {
    if calls == [] {
      NewKeepsInv(p, target, config);
    } else {
      var init := calls[..|calls| - 1];
      RunKeepsInv(p, target, config, init);
      ApplyKeepsInv(Run(New(p, target, config), init), calls[|calls| - 1]);
    }
  }

  /** The last expiry height that a run asks for. */
  function LastExpiry(calls: seq<BuilderCall>, otherwise: u32): u32 {
    if calls == [] then otherwise
    else match calls[|calls| - 1]
      case WithExpiryHeight(height) => height
      case _ => LastExpiry(calls[..|calls| - 1], otherwise)
  }

  lemma {:induction false} ExpiryOverRuns(s: BuilderState, calls: seq<BuilderCall>)
    ensures Run(s, calls).expiry == LastExpiry(calls, s.expiry)
  {
    if calls != [] {
      ExpiryOverRuns(s, calls[..|calls| - 1]);
      hide CheckVersion;
    }
  }

  /**
   * A coinbase builder passes its expiry check exactly when no call moved the expiry away from the
   * target; it never carries a staking action or a required padding bundle, nor Orchard in NU6.3.
   */
  lemma CoinbaseOverRuns(p: Schedule, target: u32, calls: seq<BuilderCall>)
    ensures var s := Run(New(p, target, CoinbaseConfig), calls);
      && (CheckCoinbaseExpiry(s).None? <==> LastExpiry(calls, target) == target)
      && s.staking.None? && !OrchardPaddingLost(s) && !IronwoodPaddingLost(s)
      && (ForHeight(p, target).Nu6_3Branch? ==> s.orchard.None?)
  {
    RunKeepsInv(p, target, CoinbaseConfig, calls);
    ExpiryOverRuns(New(p, target, CoinbaseConfig), calls);
    hide Run, ForHeight;
  }

  //////////////////////////////////////////////////////////////////////////////
  // Value balance
  //////////////////////////////////////////////////////////////////////////////

  function CoinValue(c: Coin): int { c.value }

  function OutValue(o: TxOut): int { o.value }

  /** Inputs less outputs, when both totals are amounts. */
  ghost function TransparentBalance(inputs: seq<Coin>, outputs: seq<TxOut>): (r: Checked<int>) {
    if Total(inputs, CoinValue) > MAX_MONEY || Total(outputs, OutValue) > MAX_MONEY then OutOfRange(Overflow)
    else Amount(Total(inputs, CoinValue) - Total(outputs, OutValue))
  }

  ghost function SaplingBalance(n: Option<SaplingNotes>): int {
    if n.None? then 0 else Sum(n.value.spends) - Sum(n.value.outputs)
  }

  ghost function OrchardBalance(n: Option<OrchardNotes>): int {
    if n.None? then 0 else Sum(n.value.spends) - Sum(n.value.outputs) - Sum(n.value.changes)
  }

  predicate InBalanceRange(v: int) {
    -MAX_MONEY <= v <= MAX_MONEY
  }

  /** The pools' balances in the order in which the builder adds them. */
  ghost function Balances(s: BuilderState, transparent: int): seq<int> {
    [transparent, SaplingBalance(s.sapling), OrchardBalance(s.orchard), OrchardBalance(s.ironwood),
     Contribution(s.staking)]
  }

  /** A list of balances added up one by one. */
  ghost function AddedUp(balances: seq<int>): (r: Checked<ZatBalance>)
    ensures r.Amount? <==> PrefixesInRange(balances)
    ensures r.Amount? ==> r.value == Sum(balances)
    ensures r.OutOfRange? ==> r.error == Overflow
  {
    assert balances[..|balances|] == balances;
    if PrefixesInRange(balances) then Amount(Sum(balances)) else OutOfRange(Overflow)
  }

  ghost function ValueBalance(s: BuilderState): Checked<ZatBalance> {
    match TransparentBalance(s.inputs, s.outputs)
    case OutOfRange(e) => OutOfRange(e)
    case Amount(t) =>
      if InBalanceRange(SaplingBalance(s.sapling)) && InBalanceRange(OrchardBalance(s.orchard))
         && InBalanceRange(OrchardBalance(s.ironwood))
      then AddedUp(Balances(s, t))
      else OutOfRange(Overflow)
  }

  /** The balance check of a build: what is left after the fee must be nothing. */
  ghost function CheckBalance(s: BuilderState, fee: Zatoshis): Option<BuildError> {
    match ValueBalance(s)
    case OutOfRange(e) => Some(Balance(e))
    case Amount(v) =>
      if v - fee < -MAX_MONEY then Some(Balance(Underflow))
      else if v < fee then Some(InsufficientFunds(fee - v))
      else if v > fee then Some(ChangeRequired(v - fee))
      else None
  }

  /** What the fee rule answered; a coinbase does not ask it. */
  ghost function BuildChecks(s: BuilderState, fee: Option<Zatoshis>): Option<BuildError> {
    if !s.config.CoinbaseConfig? && fee.None? then Some(FeeRefused)
    else if CheckVersion(s, s.version).Some? then CheckVersion(s, s.version)
    else if CheckCoinbaseExpiry(s).Some? then CheckCoinbaseExpiry(s)
    else if s.config.CoinbaseConfig? then None
    else CheckBalance(s, fee.value)
  }

  //////////////////////////////////////////////////////////////////////////////
  // The fee
  //////////////////////////////////////////////////////////////////////////////

  /** How many outputs or actions the pools' builders will make; `None` where they object. */
  datatype Counting = Counting(
    saplingOutputs: (nat, nat) -> Option<nat>, actions: (BundleType, BundleVersion, nat, nat) -> Option<nat>)

  /** A P2PKH input counts with its standard size. */
  function SizeOfCoin(c: Coin): InputSize<OutPoint> {
    match c.spending
    case P2pkh => Known(P2PKH_STANDARD_INPUT_SIZE)
    case P2sh(Some(length)) => Known(length)
    case P2sh(None) => Unknown(c.outpoint)
  }

  /** An output counts with the size it has on the wire. */
  function SizeOfOutput(o: TxOut): nat { |EncTxOut(o)| }

  function SaplingSpends(s: BuilderState): nat {
    if s.sapling.None? then 0 else |s.sapling.value.spends|
  }

  function SaplingOutputs(s: BuilderState, n: Counting): Option<nat> {
    if s.sapling.None? then Some(0) else n.saplingOutputs(SaplingSpends(s), |s.sapling.value.outputs|)
  }

  function Actions(o: Option<OrchardNotes>, n: Counting): Option<nat> {
    match o
    case None => Some(0)
    case Some(o) => n.actions(o.bundleType, o.version, |o.spends|, |o.outputs| + |o.changes|)
  }

  predicate Countable(s: BuilderState, n: Counting) {
    SaplingOutputs(s, n).Some? && Actions(s.orchard, n).Some? && Actions(s.ironwood, n).Some?
  }

  ghost function CountsOfBuilder(s: BuilderState, n: Counting): Counts
    requires Countable(s, n)
  {
    CountsOf(Map(s.inputs, SizeOfCoin), Map(s.outputs, SizeOfOutput), SaplingSpends(s), SaplingOutputs(s, n).value,
             Actions(s.orchard, n).value, Actions(s.ironwood, n).value)
  }

  /** `get_fee` under ZIP 317: the fee of what was added, if it can be counted and every input's size is known. */
  ghost function FeeOf(s: BuilderState, rule: FeeRule, n: Counting): (fee: Option<Zatoshis>)
    ensures fee.Some? <==>
            && Countable(s, n)
            && (forall i :: 0 <= i < |s.inputs| ==> s.inputs[i].spending != P2sh(None))
            && RawFee(rule, CountsOfBuilder(s, n)) <= MAX_MONEY
    ensures fee.Some? ==> fee.value == RawFee(rule, CountsOfBuilder(s, n))
  {
    UnknownOnlyP2sh(s.inputs);
    if !Countable(s, n) || UnknownOutpoints(Map(s.inputs, SizeOfCoin)) != [] then None
    else
      var fee := RawFee(rule, CountsOfBuilder(s, n));
      if fee <= MAX_MONEY then Some(fee) else None
  }

  lemma {:induction false} UnknownOnlyP2sh(inputs: seq<Coin>)
    ensures UnknownOutpoints(Map(inputs, SizeOfCoin)) == [] <==>
            forall i :: 0 <= i < |inputs| ==> inputs[i].spending != P2sh(None)
  {
    if inputs != [] {
      var n := |inputs| - 1;
      UnknownOnlyP2sh(inputs[..n]);
      assert Map(inputs, SizeOfCoin)[..n] == Map(inputs[..n], SizeOfCoin);
    }
  }

  //////////////////////////////////////////////////////////////////////////////
  // The finished transaction
  //////////////////////////////////////////////////////////////////////////////

  /** What the pools' builders return. */
  datatype Bundles = Bundles(
    transparent: Option<TransparentBundle>, sapling: Option<SaplingBundle>, orchard: Option<OrchardBundle>,
    ironwood: Option<OrchardBundle>)

  predicate BuildsBundle(n: Option<OrchardNotes>) {
    NotesInUse(n) || (n.Some? && Required(n.value))
  }

  /** A bundle has its builder's balance and bundle version. */
  ghost predicate Keeps(b: OrchardBundle, n: Option<OrchardNotes>) {
    n.Some? && b.valueBalance == OrchardBalance(n) && b.version == n.value.version
  }

  /** Each input spends the coin added at its place. */
  predicate SpendsCoins(vin: seq<TxIn>, inputs: seq<Coin>) {
    |vin| == |inputs| && forall i :: 0 <= i < |vin| ==> vin[i].prevout == inputs[i].outpoint
  }

  /** A transparent bundle has the added coins and outputs, and is absent without them; a coinbase has its own input. */
  predicate KeepsTransparent(s: BuilderState, b: Option<TransparentBundle>) {
    if s.config.CoinbaseConfig? then b.Some? && IsCoinbase(b.value) && b.value.vout == s.outputs
    else
      && (b.None? <==> s.inputs == [] && s.outputs == [])
      && (b.Some? ==> SpendsCoins(b.value.vin, s.inputs) && b.value.vout == s.outputs)
  }

  /** The pools' builders return bundles exactly when they should, with what was added and its balance. */
  ghost predicate Faithful(s: BuilderState, b: Bundles) {
    && KeepsTransparent(s, b.transparent)
    && (b.sapling.Some? <==> SaplingInUse(s))
    && (b.sapling.Some? ==> b.sapling.value.valueBalance == SaplingBalance(s.sapling))
    && (b.orchard.Some? <==> BuildsBundle(s.orchard))
    && (b.orchard.Some? ==> Keeps(b.orchard.value, s.orchard))
    && (b.ironwood.Some? <==> BuildsBundle(s.ironwood))
    && (b.ironwood.Some? ==> Keeps(b.ironwood.value, s.ironwood))
  }

  function Assemble(s: BuilderState, b: Bundles): TxData {
    TxData(s.version, s.branch, 0, s.expiry, b.transparent, None, b.sapling, b.orchard, b.ironwood, s.staking)
  }

  /** The bundles are such that some slot could carry them. */
  predicate SoundBundles(k: Rules, b: Bundles) {
    && GoodTransparent(b.transparent)
    && GoodSaplingV5(k.curves, b.sapling)
    && (b.orchard.Some? ==> GoodOrchard(k.pallas, Some(b.orchard.value.version), b.orchard))
    && (b.ironwood.Some? ==> GoodOrchard(k.pallas, Some(b.ironwood.value.version), b.ironwood))
  }

  /** An unused Orchard builder still makes a bundle, but the version has no place for it. */
  predicate OrchardPaddingLost(s: BuilderState) {
    s.orchard.Some? && Required(s.orchard.value) && !HasOrchard(s.version)
  }

  predicate IronwoodPaddingLost(s: BuilderState) {
    s.ironwood.Some? && Required(s.ironwood.value) && !HasIronwood(s.version)
  }

  /** The two calls in a build that can panic: the shielded signature hash, and freezing. */
  datatype Panic = SignatureHash | Freezing

  datatype Outcome = Built(data: TxData) | Refused(error: BuildError) | Panicked(at: Panic)

  /**
   * A build checks, assembles, hashes for signing, and freezes. The signature hash is taken whatever
   * there is to sign, and is not defined before Overwinter; freezing hashes the written bytes up to v4.
   */
  ghost function BuildOutcome(s: BuilderState, fee: Option<Zatoshis>, b: Bundles): Outcome {
    var d := Assemble(s, b);
    if BuildChecks(s, fee).Some? then Refused(BuildChecks(s, fee).value)
    else if !HasOverwinter(s.version) then Panicked(SignatureHash)
    else if Legacy(s.version) && TxBytes(d).Failure? then Panicked(Freezing)
    else Built(d)
  }

  /** A build that passes its checks panics exactly before Overwinter, or when a required Orchard bundle is lost. */
  lemma PanicsExactly(s: BuilderState, fee: Option<Zatoshis>, b: Bundles)
    requires Inv(s) && BuildChecks(s, fee).None? && Faithful(s, b)
    ensures BuildOutcome(s, fee, b) == Panicked(SignatureHash) <==> s.branch.SproutBranch?
    ensures BuildOutcome(s, fee, b) == Panicked(Freezing) <==> OrchardPaddingLost(s) && !s.branch.SproutBranch?
    ensures !BuildOutcome(s, fee, b).Refused?
  {
    WriterRefusesExactly(s, fee, b);
    hide TxBytes, CheckBalance, Faithful;
  }

  /**
   * A finished build has everything that was added, in a transaction that its version carries in
   * full, which its writer accepts and every reader returns, exactly when no required Ironwood
   * bundle is without a place.
   */
  lemma BuiltIsWellFormed(k: Rules, s: BuilderState, fee: Option<Zatoshis>, b: Bundles)
    requires Inv(s) && GoodVersion(s.version) && BuildOutcome(s, fee, b).Built?
    requires Faithful(s, b) && SoundBundles(k, b)
    ensures BuildOutcome(s, fee, b).data == Assemble(s, b)
    ensures WellFormed(k, Assemble(s, b)) <==> !IronwoodPaddingLost(s)
  {
    PanicsExactly(s, fee, b);
    hide GoodTransparent, GoodSaplingV5, GoodOrchard, GoodSapling, CheckBalance, SaplingBalance, OrchardBalance;
    hide KeepsTransparent, TxBytes;
    LegacySapling(k, b);
    GoodOrchardVersion(k, s, b);
  }

  /** A plain builder with one coin worth the fee passes every check under the Sprout branch, and then panics. */
  lemma SproutBuildPanics(p: Schedule, target: u32, coin: Coin, b: Bundles)
    requires ForHeight(p, target).SproutBranch?
    ensures var padding := BundlePadding(false, None);
            var config := Standard(None, None, None, padding, padding);
            var s := Run(New(p, target, config), [AddTransparentInput(coin, true)]);
      BuildChecks(s, Some(coin.value)).None? && BuildOutcome(s, Some(coin.value), b) == Panicked(SignatureHash)
  {
    hide ForHeight, Run, BuildChecks, TxBytes;
    var padding := BundlePadding(false, None);
    Paid(New(p, target, Standard(None, None, None, padding, padding)), coin);
  }

  lemma Paid(s: BuilderState, coin: Coin)
    requires s.inputs == [] && s.outputs == [] && s.staking.None? && !s.config.CoinbaseConfig?
    requires !SaplingInUse(s) && !NotesInUse(s.orchard) && !NotesInUse(s.ironwood) && CheckVersion(s, s.version).None?
    ensures var r := Run(s, [AddTransparentInput(coin, true)]);
      r == s.(inputs := [coin]) && BuildChecks(r, Some(coin.value)).None?
  {
    var c := AddTransparentInput(coin, true);
    assert [c][..0] == [];
    assert Run(s, []) == s;
    assert Run(s, [c]) == Apply(s, c).0;
    hide CheckBalance;
    OneCoinPays(s, coin);
  }

  /** A version that is proposed must be one that can be written. */
  predicate ProposesGoodVersions(calls: seq<BuilderCall>) {
    forall c :: c in calls && c.ProposeVersion? ==> GoodVersion(c.v)
  }

  lemma {:induction false} RunKeepsGoodVersion(p: Schedule, target: u32, config: BuildConfig, calls: seq<BuilderCall>)
    requires ProposesGoodVersions(calls)
    ensures GoodVersion(Run(New(p, target, config), calls).version)
  {
    if calls == [] {
      hide ForHeight;
    } else {
      RunKeepsGoodVersion(p, target, config, calls[..|calls| - 1]);
      assert calls[|calls| - 1] in calls;
      hide CheckVersion, AddToSapling, AddToOrchard, AddToIronwood, New;
      AddsKeepVersion(Run(New(p, target, config), calls[..|calls| - 1]), calls[|calls| - 1]);
    }
  }

  lemma AddsKeepVersion(s: BuilderState, c: BuilderCall)
    ensures Apply(s, c).0.version == s.version || (c.ProposeVersion? && Apply(s, c).0.version == c.v)
  {
  }

  /**
   * Over every run of calls from a new builder, a build that passes its checks either finishes, and is
   * then well formed unless a required Ironwood bundle is lost, or panics: under the Sprout branch,
   * or because a required Orchard bundle has no place.
   */
  lemma EveryBuildIsWellFormed(p: Schedule, target: u32, config: BuildConfig, calls: seq<BuilderCall>,
                               k: Rules, fee: Option<Zatoshis>, b: Bundles)
    requires ProposesGoodVersions(calls)
    requires var s := Run(New(p, target, config), calls); BuildChecks(s, fee).None? && Faithful(s, b)
    requires SoundBundles(k, b)
    ensures var s := Run(New(p, target, config), calls);
      && (BuildOutcome(s, fee, b).Panicked? <==> ForHeight(p, target).SproutBranch? || OrchardPaddingLost(s))
      && (!BuildOutcome(s, fee, b).Panicked? ==>
            && BuildOutcome(s, fee, b) == Built(Assemble(s, b))
            && (WellFormed(k, Assemble(s, b)) <==> !IronwoodPaddingLost(s)))
  {
    RunKeepsInv(p, target, config, calls);
    RunKeepsGoodVersion(p, target, config, calls);
    var s := Run(New(p, target, config), calls);
    PanicsExactly(s, fee, b);
    hide New, Run, BuildChecks, Faithful, SoundBundles, WellFormed, ForHeight, Inv, PaddingKept;
    if BuildOutcome(s, fee, b).Built? {
      BuiltIsWellFormed(k, s, fee, b);
    }
  }

  /** The writer behind the identifier refuses a finished transaction exactly when it has a lost Orchard bundle. */
  lemma WriterRefusesExactly(s: BuilderState, fee: Option<Zatoshis>, b: Bundles)
    requires Inv(s) && BuildChecks(s, fee).None? && Faithful(s, b)
    ensures TxBytes(Assemble(s, b)).Failure? <==> OrchardPaddingLost(s)
  {
    hide EncVersion, EncModern, EncLegacy, CheckBalance, SaplingBalance, OrchardBalance, KeepsTransparent;
  }

  /** With this padding an unused Ironwood builder makes a bundle that a v5 transaction silently drops. */
  lemma IronwoodPaddingCanBeLost(p: Schedule, target: u32, coin: Coin)
    requires ForHeight(p, target).Nu6_3Branch?
    ensures var padding := BundlePadding(true, None);
            var config := Standard(None, None, Some(Zeros(32)), padding, padding);
            var s := Run(New(p, target, config), [ProposeVersion(V5), AddTransparentInput(coin, true)]);
      BuildChecks(s, Some(coin.value)).None? && IronwoodPaddingLost(s) && !OrchardPaddingLost(s)
  {
    hide ForHeight, Run, BuildChecks;
    var padding := BundlePadding(true, None);
    ProposedAndPaid(New(p, target, Standard(None, None, Some(Zeros(32)), padding, padding)), V5, coin);
  }

  /** With this one an unused Orchard builder makes a bundle that the v4 writer refuses. */
  lemma OrchardPaddingCanBeLost(p: Schedule, target: u32, coin: Coin)
    requires ForHeight(p, target).Nu5Branch?
    ensures var padding := BundlePadding(true, None);
            var config := Standard(None, Some(Zeros(32)), None, padding, padding);
            var s := Run(New(p, target, config), [ProposeVersion(V4), AddTransparentInput(coin, true)]);
      BuildChecks(s, Some(coin.value)).None? && OrchardPaddingLost(s)
  {
    hide ForHeight, Run, BuildChecks;
    var padding := BundlePadding(true, None);
    ProposedAndPaid(New(p, target, Standard(None, Some(Zeros(32)), None, padding, padding)), V4, coin);
  }

  lemma ProposedAndPaid(s: BuilderState, v: TxVersion, coin: Coin)
    requires s.inputs == [] && s.outputs == [] && s.staking.None? && !s.config.CoinbaseConfig?
    requires !SaplingInUse(s) && !NotesInUse(s.orchard) && !NotesInUse(s.ironwood) && CheckVersion(s, v).None?
    ensures var r := Run(s, [ProposeVersion(v), AddTransparentInput(coin, true)]);
      r == s.(version := v, inputs := [coin]) && BuildChecks(r, Some(coin.value)).None?
  {
    var c, d := ProposeVersion(v), AddTransparentInput(coin, true);
    assert [c, d][..1] == [c] && [c][..0] == [];
    assert Run(s, []) == s;
    assert Run(s, [c]) == Apply(s, c).0;
    assert Run(s, [c, d]) == Apply(Apply(s, c).0, d).0;
    hide CheckBalance;
    OneCoinPays(s.(version := v), coin);
  }

  /** A builder without notes or outputs is balanced by one coin worth the fee. */
  lemma OneCoinPays(s: BuilderState, coin: Coin)
    requires s.inputs == [] && s.outputs == [] && s.staking.None?
    requires !SaplingInUse(s) && !NotesInUse(s.orchard) && !NotesInUse(s.ironwood)
    ensures CheckBalance(s.(inputs := s.inputs + [coin]), coin.value).None?
  {
    var rich := s.(inputs := s.inputs + [coin]);
    assert rich.inputs == [coin] && [coin][..0] == [];
    assert Total(rich.inputs, CoinValue) == coin.value;
    UnusedIsZero(rich);
    var v: int := coin.value;
    hide SaplingBalance, OrchardBalance;
    assert Balances(rich, v) == [v, 0, 0, 0, 0];
    OnlyFirstCounts(v);
  }

  lemma OnlyFirstCounts(v: int)
    requires InBalanceRange(v)
    ensures PrefixesInRange([v, 0, 0, 0, 0]) && Sum([v, 0, 0, 0, 0]) == v
  {
    assert [v] + [0] + [] == [v, 0] && [v] + [] == [v];
    assert [v] + [0] + [0] == [v, 0, 0] && [v] + [0] == [v, 0];
    assert [v] + [0] + [0, 0] == [v, 0, 0, 0] && [v] + [0, 0] == [v, 0, 0];
    assert [v] + [0] + [0, 0, 0] == [v, 0, 0, 0, 0] && [v] + [0, 0, 0] == [v, 0, 0, 0];
    assert PrefixesInRange([v]) && Sum([v]) == v by {
      assert [v][..0] == [] && [v][..1] == [v];
    }
    hide Sum, PrefixesInRange;
    ZeroInserted([v], []);
    ZeroInserted([v], [0]);
    ZeroInserted([v], [0, 0]);
    ZeroInserted([v], [0, 0, 0]);
  }

  lemma LegacySapling(k: Rules, b: Bundles)
    requires GoodSaplingV5(k.curves, b.sapling)
    ensures b.sapling.Some? ==> GoodSapling(k.curves, b.sapling.value)
  {
  }

  lemma GoodOrchardVersion(k: Rules, s: BuilderState, b: Bundles)
    requires Inv(s) && Faithful(s, b) && SoundBundles(k, b)
    ensures GoodOrchard(k.pallas, BundleVersionForBranch(s.branch, OrchardPool), b.orchard)
    ensures GoodOrchard(k.pallas, BundleVersionForBranch(s.branch, IronwoodPool), b.ironwood)
  {
    hide GoodBodies, GoodData, GoodSaplingV5, GoodTransparent, SaplingBalance, OrchardBalance, KeepsTransparent;
  }

  //////////////////////////////////////////////////////////////////////////////
  // What a transaction pays
  //////////////////////////////////////////////////////////////////////////////

  function NetValueOf(js: JsDescription): int { NetValue(js) }

  ghost function SproutBalance(b: Option<SproutBundle>): Checked<ZatBalance> {
    if b.None? then Amount(0) else AddedUp(Map(b.value.joinsplits, NetValueOf))
  }

  function SaplingBundleBalance(b: Option<SaplingBundle>): ZatBalance {
    if b.None? then 0 else b.value.valueBalance
  }

  function OrchardBundleBalance(b: Option<OrchardBundle>): ZatBalance {
    if b.None? then 0 else b.value.valueBalance
  }

  /** The pools' balances in the order in which a finished transaction adds them. */
  ghost function PaidBalances(d: TxData, transparent: int, sprout: int): seq<int> {
    [transparent, sprout, SaplingBundleBalance(d.sapling), OrchardBundleBalance(d.orchard),
     OrchardBundleBalance(d.ironwood), Contribution(d.staking)]
  }

  /** What is known of earlier outputs. */
  type Lookup = OutPoint -> Option<Zatoshis>

  /** The value spent by inputs, up to the first one that is not known or takes the total too far. */
  function Spent(vin: seq<TxIn>, lookup: Lookup): Checked<Option<Zatoshis>> {
    if vin == [] then Amount(Some(0)) else
      match Spent(vin[..|vin| - 1], lookup)
      case OutOfRange(e) => OutOfRange(e)
      case Amount(None) => Amount(None)
      case Amount(Some(total)) =>
        match lookup(vin[|vin| - 1].prevout)
        case None => Amount(None)
        case Some(value) =>
          match AddZatoshis(total, value)
          case None => OutOfRange(Overflow)
          case Some(sum) => Amount(Some(sum))
  }

  /** The transparent balance of a finished transaction. */
  ghost function TransparentPaid(b: Option<TransparentBundle>, lookup: Lookup): Checked<Option<int>> {
    match Spent(Vin(b), lookup)
    case OutOfRange(e) => OutOfRange(e)
    case Amount(None) => Amount(None)
    case Amount(Some(spent)) =>
      if Total(Vout(b), OutValue) > MAX_MONEY then OutOfRange(Overflow)
      else Amount(Some(spent - Total(Vout(b), OutValue)))
  }

  /** `fee_paid`; without the value of every spent coin there is no answer. */
  ghost function FeePaidOf(d: TxData, lookup: Lookup): Checked<Option<Zatoshis>> {
    match TransparentPaid(d.transparent, lookup)
    case OutOfRange(e) => OutOfRange(e)
    case Amount(None) => Amount(None)
    case Amount(Some(t)) =>
      match SproutBalance(d.sprout)
      case OutOfRange(e) => OutOfRange(e)
      case Amount(sprout) =>
        match AddedUp(PaidBalances(d, t, sprout))
        case OutOfRange(e) => OutOfRange(e)
        case Amount(v) =>
          match ZatoshisFromBalance(v)
          case OutOfRange(e) => OutOfRange(e)
          case Amount(fee) => Amount(Some(fee))
  }

  function ValueOrZero(lookup: Lookup, o: OutPoint): (v: int)
    ensures 0 <= v <= MAX_MONEY
    ensures lookup(o).Some? ==> v == lookup(o).value
  {
    match lookup(o)
    case None => 0
    case Some(v) => v
  }

  function KnownValue(lookup: Lookup): TxIn -> int {
    (i: TxIn) => ValueOrZero(lookup, i.prevout)
  }

  predicate AllKnown(vin: seq<TxIn>, lookup: Lookup) {
    forall i :: 0 <= i < |vin| ==> lookup(vin[i].prevout).Some?
  }

  /** On inputs whose known values fit, what is spent is their total, or not known exactly when some value is not. */
  lemma {:induction false} SpentExactly(vin: seq<TxIn>, lookup: Lookup)
    requires Total(vin, KnownValue(lookup)) <= MAX_MONEY
    ensures Spent(vin, lookup) ==
            Amount(if AllKnown(vin, lookup) then Some(Total(vin, KnownValue(lookup))) else None)
  {
    if vin != [] {
      var init := vin[..|vin| - 1];
      PrefixesNeverExceed(vin, |vin| - 1, KnownValue(lookup));
      SpentExactly(init, lookup);
      assert AllKnown(vin, lookup) <==> AllKnown(init, lookup) && lookup(vin[|vin| - 1].prevout).Some? by {
        assert forall i :: 0 <= i < |init| ==> init[i] == vin[i];
      }
    }
  }

  /** A lookup that never contradicts the coins that were added. */
  predicate Agrees(lookup: Lookup, inputs: seq<Coin>) {
    forall i :: 0 <= i < |inputs| ==>
      lookup(inputs[i].outpoint) == None || lookup(inputs[i].outpoint) == Some(inputs[i].value)
  }

  predicate KnowsAll(lookup: Lookup, inputs: seq<Coin>) {
    forall i :: 0 <= i < |inputs| ==> lookup(inputs[i].outpoint).Some?
  }

  lemma {:induction false} KnownOfCoins(vin: seq<TxIn>, inputs: seq<Coin>, lookup: Lookup)
    requires SpendsCoins(vin, inputs) && Agrees(lookup, inputs)
    ensures 0 <= Total(vin, KnownValue(lookup)) <= Total(inputs, CoinValue)
    ensures KnowsAll(lookup, inputs) ==> Total(vin, KnownValue(lookup)) == Total(inputs, CoinValue)
    ensures AllKnown(vin, lookup) <==> KnowsAll(lookup, inputs)
  {
    if vin != [] {
      var n := |vin| - 1;
      KnownOfCoins(vin[..n], inputs[..n], lookup);
      assert vin[n].prevout == inputs[n].outpoint;
    }
  }

  /** A zero among the balances shifts the prefix sums and changes none of them. */
  lemma ZeroInserted(xs: seq<int>, ys: seq<int>)
    ensures PrefixesInRange(xs + [0] + ys) <==> PrefixesInRange(xs + ys)
    ensures Sum(xs + [0] + ys) == Sum(xs + ys)
  {
    var long, short := xs + [0] + ys, xs + ys;
    TotalAround(xs, 0, ys, Itself);
    forall k | 0 <= k <= |short|
      ensures Sum(short[..k]) == Sum(long[..if k <= |xs| then k else k + 1])
    {
      if k <= |xs| {
        assert short[..k] == long[..k];
      } else {
        assert short[..k] == xs + ys[..k - |xs|] && long[..k + 1] == xs + [0] + ys[..k - |xs|];
        TotalAround(xs, 0, ys[..k - |xs|], Itself);
      }
    }
    assert long[..|xs| + 1] == xs + [0] + ys[..0] && short[..|xs|] == xs + ys[..0];
    TotalAround(xs, 0, ys[..0], Itself);
    if PrefixesInRange(long) {
      forall k | 0 <= k <= |short| ensures InBalanceRange(Sum(short[..k])) {
        assert InBalanceRange(Sum(long[..if k <= |xs| then k else k + 1]));
      }
    }
    if PrefixesInRange(short) {
      forall k | 0 <= k <= |long| ensures InBalanceRange(Sum(long[..k])) {
        var j := if k <= |xs| then k else k - 1;
        assert InBalanceRange(Sum(short[..j]));
      }
    }
  }

  /** What the builder and the finished transaction make of the same coins and outputs. */
  lemma TransparentAgrees(s: BuilderState, b: Option<TransparentBundle>, lookup: Lookup)
    requires !s.config.CoinbaseConfig? && KeepsTransparent(s, b) && Agrees(lookup, s.inputs)
    requires TransparentBalance(s.inputs, s.outputs).Amount?
    ensures TransparentPaid(b, lookup) ==
            Amount(if KnowsAll(lookup, s.inputs) then Some(TransparentBalance(s.inputs, s.outputs).value) else None)
  {
    KnownOfCoins(Vin(b), s.inputs, lookup);
    SpentExactly(Vin(b), lookup);
    hide Spent, Total, AllKnown, KnowsAll;
    assert Vout(b) == s.outputs;
  }

  /**
   * A non-coinbase build that passes its checks pays exactly the fee that the rule asked for: the
   * finished transaction says so to everyone who knows the coins it spends, whatever else they know,
   * and nothing to anyone who misses one of them.
   */
  lemma FeeConservation(s: BuilderState, fee: Zatoshis, b: Bundles, lookup: Lookup)
    requires !s.config.CoinbaseConfig? && BuildChecks(s, Some(fee)).None? && Faithful(s, b)
    requires Agrees(lookup, s.inputs)
    ensures FeePaidOf(Assemble(s, b), lookup) == Amount(if KnowsAll(lookup, s.inputs) then Some(fee) else None)
  {
    TransparentAgrees(s, b.transparent, lookup);
    BalancesAgree(s, b, TransparentBalance(s.inputs, s.outputs).value);
    hide TransparentBalance, TransparentPaid, CheckVersion, Faithful, Agrees, KnowsAll, Balances, PaidBalances;
  }

  /** The two independently written sums have the same prefix sums, so they succeed and fail together. */
  lemma BalancesAgree(s: BuilderState, b: Bundles, t: int)
    requires Faithful(s, b)
    ensures AddedUp(PaidBalances(Assemble(s, b), t, 0)) == AddedUp(Balances(s, t))
  {
    hide KeepsTransparent, Sum, PrefixesInRange;
    var rest :=
      [SaplingBalance(s.sapling), OrchardBalance(s.orchard), OrchardBalance(s.ironwood), Contribution(s.staking)];
    UnusedIsZero(s);
    assert Balances(s, t) == [t] + rest;
    assert PaidBalances(Assemble(s, b), t, 0) == [t] + [0] + rest by {
      hide SaplingBalance, OrchardBalance;
    }
    ZeroInserted([t], rest);
  }

  lemma UnusedIsZero(s: BuilderState)
    ensures !SaplingInUse(s) ==> SaplingBalance(s.sapling) == 0
    ensures !NotesInUse(s.orchard) ==> OrchardBalance(s.orchard) == 0
    ensures !NotesInUse(s.ironwood) ==> OrchardBalance(s.ironwood) == 0
  {
  }

  /** The reported shortfall is what one more coin of that value would cover. */
  lemma ShortfallIsExact(s: BuilderState, fee: Zatoshis, outpoint: OutPoint)
    requires CheckBalance(s, fee).Some? && CheckBalance(s, fee).value.InsufficientFunds?
    ensures 0 < CheckBalance(s, fee).value.missing <= MAX_MONEY
    ensures var richer := s.(inputs := s.inputs + [Coin(outpoint, CheckBalance(s, fee).value.missing, P2pkh)]);
            ValueBalance(richer).Amount? ==> CheckBalance(richer, fee).None?
  {
    hide PrefixesInRange, SaplingBalance, OrchardBalance;
    var missing := CheckBalance(s, fee).value.missing;
    var coin := Coin(outpoint, missing, P2pkh);
    TotalAround(s.inputs, coin, [], CoinValue);
    assert s.inputs + [coin] + [] == s.inputs + [coin] && s.inputs + [] == s.inputs;
    var t := TransparentBalance(s.inputs, s.outputs).value;
    SumOfBalances(s, t);
    SumOfBalances(s.(inputs := s.inputs + [coin]), t + missing);
    hide Sum, Total, Balances;
  }

  /** The reported excess is what one more output of that value would take up. */
  lemma ExcessIsExact(s: BuilderState, fee: Zatoshis, script: Bytes)
    requires CheckBalance(s, fee).Some? && CheckBalance(s, fee).value.ChangeRequired?
    ensures 0 < CheckBalance(s, fee).value.excess
    ensures var changed := s.(outputs := s.outputs + [TxOut(CheckBalance(s, fee).value.excess, script)]);
            ValueBalance(changed).Amount? ==> CheckBalance(changed, fee).None?
  {
    hide PrefixesInRange, SaplingBalance, OrchardBalance;
    var excess := CheckBalance(s, fee).value.excess;
    var out := TxOut(excess, script);
    TotalAround(s.outputs, out, [], OutValue);
    assert s.outputs + [out] + [] == s.outputs + [out] && s.outputs + [] == s.outputs;
    var t := TransparentBalance(s.inputs, s.outputs).value;
    SumOfBalances(s, t);
    SumOfBalances(s.(outputs := s.outputs + [out]), t - excess);
    hide Sum, Total, Balances;
  }

  /** Opening a bond costs its amount, withdrawing one yields it, and no other action moves value. */
  lemma StakingMovesItsAmount(s: BuilderState, action: StakingAction)
    requires ValueBalance(s.(staking := None)).Amount? && ValueBalance(s.(staking := Some(action))).Amount?
    ensures ValueBalance(s.(staking := Some(action))).value - ValueBalance(s.(staking := None)).value ==
            match action
            case CreateNewDelegationBond(_, _, amount) => 0 - amount as int
            case WithdrawDelegationBond(_, amount) => amount as int
            case _ => 0
  {
    hide PrefixesInRange, SaplingBalance, OrchardBalance, Sum;
    var t := TransparentBalance(s.inputs, s.outputs).value;
    SumOfBalances(s.(staking := None), t);
    SumOfBalances(s.(staking := Some(action)), t);
    hide Balances;
  }

  lemma SumOfBalances(s: BuilderState, t: int)
    ensures Sum(Balances(s, t)) ==
            t + SaplingBalance(s.sapling) + OrchardBalance(s.orchard) + OrchardBalance(s.ironwood)
            + Contribution(s.staking)
  {
    var a, b, c, d :=
      SaplingBalance(s.sapling), OrchardBalance(s.orchard), OrchardBalance(s.ironwood), Contribution(s.staking);
    assert Sum([]) == 0;
    SumSnoc([], t);
    SumSnoc([t], a);
    SumSnoc([t, a], b);
    SumSnoc([t, a, b], c);
    SumSnoc([t, a, b, c], d);
    assert [] + [t] == [t] && [t] + [a] == [t, a] && [t, a] + [b] == [t, a, b] && [t, a, b] + [c] == [t, a, b, c];
    assert [t, a, b, c] + [d] == [t, a, b, c, d];
  }
}
