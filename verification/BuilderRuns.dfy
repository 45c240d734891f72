/** What whole runs of calls on a new builder amount to: which calls it takes, what they move, what is built. */
module BuilderRuns {
  import opened ByteStrings
  import opened Io
  import opened Schedules
  import opened Staking
  import opened Transactions
  import opened Transparent
  import opened TxBuilder
  import opened TxVersions
  import opened Values
  import opened Zip317

  //////////////////////////////////////////////////////////////////////////////
  // Which calls are taken
  //////////////////////////////////////////////////////////////////////////////

  /** The calls of a run that were taken, in order. */
  function Accepted(s: BuilderState, calls: seq<BuilderCall>): seq<BuilderCall> {
    if calls == [] then [] else
      var init, last := calls[..|calls| - 1], calls[|calls| - 1];
      Accepted(s, init) + if Apply(Run(s, init), last).1.None? then [last] else []
  }

  predicate SaplingOffered(config: BuildConfig) {
    config.CoinbaseConfig? || config.saplingAnchor.Some?
  }

  /** From NU5 on; a coinbase loses it in NU6.3. */
  predicate OrchardOffered(config: BuildConfig, branch: BranchId) {
    OrchardActive(branch) && if config.CoinbaseConfig? then !branch.Nu6_3Branch? else config.orchardAnchor.Some?
  }

  predicate IronwoodOffered(config: BuildConfig, branch: BranchId) {
    branch.Nu6_3Branch? && (config.CoinbaseConfig? || (config.Standard? && config.ironwoodAnchor.Some?))
  }

  /** What a builder offers is settled when it is made. */
  predicate Offers(s: BuilderState) {
    && s.sapling.Some? == SaplingOffered(s.config)
    && s.orchard.Some? == OrchardOffered(s.config, s.branch)
    && s.ironwood.Some? == IronwoodOffered(s.config, s.branch)
  }

  lemma {:induction false} OffersOverRuns(p: Schedule, target: u32, config: BuildConfig, calls: seq<BuilderCall>)
    ensures Offers(Run(New(p, target, config), calls))
  {
    if calls == [] {
      NewOffers(p, target, config);
    } else {
      OffersOverRuns(p, target, config, calls[..|calls| - 1]);
      CallKeepsOffer(Run(New(p, target, config), calls[..|calls| - 1]), calls[|calls| - 1]);
      hide New, Apply, Offers;
    }
  }

  lemma NewOffers(p: Schedule, target: u32, config: BuildConfig)
    ensures Offers(New(p, target, config))
  {
    hide ForHeight;
  }

  lemma CallKeepsOffer(s: BuilderState, c: BuilderCall)
    requires Offers(s)
    ensures Offers(Apply(s, c).0)
  {
    hide CheckVersion;
  }

  /** The version carries everything that is in use. */
  predicate HasPlaceForAll(s: BuilderState, v: TxVersion) {
    && (SaplingInUse(s) ==> HasSapling(v))
    && (NotesInUse(s.orchard) ==> HasOrchard(v))
    && (NotesInUse(s.ironwood) ==> HasIronwood(v))
  }

  /**
   * A version is taken exactly when it is valid in the branch, has crosslink exactly when configured, and
   * has a place for everything in use; a staking action is never what stands in the way.
   */
  lemma VersionsTaken(s: BuilderState, v: TxVersion)
    requires Inv(s)
    ensures CheckVersion(s, v).None? <==>
      HasCrosslink(v) == s.config.CrosslinkConfig? && ValidInBranch(v, s.branch) && HasPlaceForAll(s, v)
    ensures CheckVersion(s, v) == Some(CrosslinkConfigMismatch) <==> HasCrosslink(v) != s.config.CrosslinkConfig?
    ensures CheckVersion(s, v) != Some(StakingActionUnsupported(v))
    ensures CheckVersion(s, v) == Some(TargetIncompatible(s.branch, v, Some(SaplingPoolType))) <==>
      && HasCrosslink(v) == s.config.CrosslinkConfig? && ValidInBranch(v, s.branch)
      && SaplingInUse(s) && !HasSapling(v)
    ensures CheckVersion(s, v) == Some(TargetIncompatible(s.branch, v, Some(OrchardPoolType))) <==>
      && HasCrosslink(v) == s.config.CrosslinkConfig? && ValidInBranch(v, s.branch)
      && (SaplingInUse(s) ==> HasSapling(v)) && NotesInUse(s.orchard) && !HasOrchard(v)
  {
    assert ValidInBranch(v, s.branch) && HasSapling(v) ==> SaplingActive(s.branch);
    assert s.orchard.Some? ==> OrchardActive(s.branch);
  }

  /** When the pools' own builders agree, over every run: which calls a builder takes. */
  lemma CallsTaken(p: Schedule, target: u32, config: BuildConfig, calls: seq<BuilderCall>, c: BuilderCall)
    ensures var s := Run(New(p, target, config), calls);
            var branch := ForHeight(p, target);
      Apply(s, c).1.None? <==>
      match c
      case ProposeVersion(v) =>
        HasCrosslink(v) == config.CrosslinkConfig? && ValidInBranch(v, branch) && HasPlaceForAll(s, v)
      case WithExpiryHeight(_) => true
      case AddSaplingSpend(_, accepted) => accepted && SaplingOffered(config)
      case AddSaplingOutput(_, accepted) => accepted && SaplingOffered(config)
      case AddOrchardSpend(_, accepted) => accepted && OrchardOffered(config, branch)
      case AddOrchardOutput(_, accepted) => accepted && OrchardOffered(config, branch)
      case AddOrchardChangeOutput(_, accepted) => accepted && OrchardOffered(config, branch)
      case AddIronwoodSpend(_, noteIsV3, accepted) => accepted && noteIsV3 && IronwoodOffered(config, branch)
      case AddIronwoodOutput(_, accepted) => accepted && IronwoodOffered(config, branch)
      case AddTransparentInput(_, accepted) => accepted
      case AddTransparentOutput(_, accepted) => accepted
      case PutStakingAction(_) => config.CrosslinkConfig?
  {
    RunKeepsInv(p, target, config, calls);
    OffersOverRuns(p, target, config, calls);
    var s := Run(New(p, target, config), calls);
    if c.ProposeVersion? {
      VersionsTaken(s, c.v);
    }
    hide Run, New, ForHeight, CheckVersion, PaddingKept, HasPlaceForAll;
    hide SaplingOffered, OrchardOffered, IronwoodOffered;
  }

  /** A call that is not taken changes nothing. */
  lemma RefusedChangesNothing(s: BuilderState, c: BuilderCall)
    requires Apply(s, c).1.Some?
    ensures Apply(s, c).0 == s
  {
  }

  //////////////////////////////////////////////////////////////////////////////
  // What they move
  //////////////////////////////////////////////////////////////////////////////

  /** What a call brings into the transaction, or takes out of it. */
  function Moves(c: BuilderCall): int {
    match c
    case AddSaplingSpend(value, _) => value
    case AddSaplingOutput(value, _) => -(value as int)
    case AddOrchardSpend(value, _) => value
    case AddOrchardOutput(value, _) => -(value as int)
    case AddOrchardChangeOutput(value, _) => -(value as int)
    case AddIronwoodSpend(value, _, _) => value
    case AddIronwoodOutput(value, _) => -(value as int)
    case AddTransparentInput(coin, _) => coin.value
    case AddTransparentOutput(out, _) => -(out.value as int)
    case _ => 0
  }

  /** What the staking action brings in or takes out. */
  function StakingMoves(a: Option<StakingAction>): int {
    match a
    case Some(CreateNewDelegationBond(_, _, amount)) => -(amount as int)
    case Some(WithdrawDelegationBond(_, amount)) => amount
    case _ => 0
  }

  /** The builder's balance without its range checks. */
  ghost function Net(s: BuilderState): int {
    Total(s.inputs, CoinValue) - Total(s.outputs, OutValue) + SaplingBalance(s.sapling) + OrchardBalance(s.orchard)
    + OrchardBalance(s.ironwood) + StakingMoves(s.staking)
  }

  lemma ValueIsNet(s: BuilderState)
    requires ValueBalance(s).Amount?
    ensures ValueBalance(s).value == Net(s)
  {
    hide SaplingBalance, OrchardBalance, PrefixesInRange, Sum, Total;
    SumOfBalances(s, TransparentBalance(s.inputs, s.outputs).value);
    hide Balances;
  }

  lemma TotalSnoc<T>(xs: seq<T>, x: T, f: T -> int)
    ensures Total(xs + [x], f) == Total(xs, f) + f(x)
  {
    TotalAround(xs, x, [], f);
    assert xs + [x] + [] == xs + [x] && xs + [] == xs;
  }

  /** One call that is taken moves its own value. */
  lemma CallMoves(s: BuilderState, c: BuilderCall)
    requires Apply(s, c).1.None?
    ensures Net(Apply(s, c).0) - StakingMoves(Apply(s, c).0.staking) == Net(s) - StakingMoves(s.staking) + Moves(c)
  {
    hide CheckVersion, Total;
    match c
    case AddSaplingSpend(value, _) =>
      SaplingMoves(s.sapling.value, [value], []);
    case AddSaplingOutput(value, _) =>
      SaplingMoves(s.sapling.value, [], [value]);
    case AddOrchardSpend(value, _) =>
      NotesMove(s.orchard.value, [value], [], []);
    case AddOrchardOutput(value, _) =>
      NotesMove(s.orchard.value, [], [value], []);
    case AddOrchardChangeOutput(value, _) =>
      NotesMove(s.orchard.value, [], [], [value]);
    case AddIronwoodSpend(value, _, _) =>
      NotesMove(s.ironwood.value, [value], [], []);
    case AddIronwoodOutput(value, _) =>
      NotesMove(s.ironwood.value, [], [value], []);
    case AddTransparentInput(coin, _) =>
      TotalSnoc(s.inputs, coin, CoinValue);
    case AddTransparentOutput(out, _) =>
      TotalSnoc(s.outputs, out, OutValue);
    case _ =>
  }

  function FirstOrZero(xs: seq<Zatoshis>): int {
    if xs == [] then 0 else xs[0]
  }

  lemma SaplingMoves(n: SaplingNotes, spends: seq<Zatoshis>, outputs: seq<Zatoshis>)
    requires |spends| <= 1 && |outputs| <= 1
    ensures SaplingBalance(Some(SaplingNotes(n.spends + spends, n.outputs + outputs))) ==
            SaplingBalance(Some(n)) + FirstOrZero(spends) - FirstOrZero(outputs)
  {
    SumMore(n.spends, spends);
    SumMore(n.outputs, outputs);
    hide Sum;
  }

  lemma NotesMove(n: OrchardNotes, spends: seq<Zatoshis>, outputs: seq<Zatoshis>, changes: seq<Zatoshis>)
    requires |spends| <= 1 && |outputs| <= 1 && |changes| <= 1
    ensures OrchardBalance(Some(Extended(n, spends, outputs, changes))) ==
            OrchardBalance(Some(n)) + FirstOrZero(spends) - FirstOrZero(outputs) - FirstOrZero(changes)
  {
    SumMore(n.spends, spends);
    SumMore(n.outputs, outputs);
    SumMore(n.changes, changes);
    hide Sum;
  }

  lemma SumMore(xs: seq<Zatoshis>, ys: seq<Zatoshis>)
    requires |ys| <= 1
    ensures Sum(xs + ys) == Sum(xs) + FirstOrZero(ys)
  {
    if ys == [] {
      assert xs + ys == xs;
    } else {
      SumSnoc(xs, ys[0]);
      assert ys == [ys[0]];
    }
  }

  /** Where both balances are amounts, one more call that is taken changes the balance by what it moves. */
  lemma TakenCallMovesItsValue(s: BuilderState, c: BuilderCall)
    requires Apply(s, c).1.None? && !c.PutStakingAction?
    requires ValueBalance(s).Amount? && ValueBalance(Apply(s, c).0).Amount?
    ensures ValueBalance(Apply(s, c).0).value - ValueBalance(s).value == Moves(c)
  {
    ValueIsNet(s);
    ValueIsNet(Apply(s, c).0);
    CallMoves(s, c);
    hide ValueBalance, Net, CheckVersion;
  }

  /** The last staking action of a run. */
  function LastStaking(calls: seq<BuilderCall>): Option<StakingAction> {
    if calls == [] then None
    else match calls[|calls| - 1]
      case PutStakingAction(a) => Some(a)
      case _ => LastStaking(calls[..|calls| - 1])
  }

  lemma {:induction false} NetOverRuns(s: BuilderState, calls: seq<BuilderCall>)
    ensures Net(Run(s, calls)) - StakingMoves(Run(s, calls).staking) ==
            Net(s) - StakingMoves(s.staking) + Total(Accepted(s, calls), Moves)
  {
    if calls != [] {
      var init, last := calls[..|calls| - 1], calls[|calls| - 1];
      NetOverRuns(s, init);
      NetStep(Run(s, init), Accepted(s, init), last);
      hide Net, Apply, StakingMoves, Total;
    }
  }

  lemma NetStep(s: BuilderState, taken: seq<BuilderCall>, c: BuilderCall)
    ensures Net(Apply(s, c).0) - StakingMoves(Apply(s, c).0.staking) ==
            Net(s) - StakingMoves(s.staking) - Total(taken, Moves)
            + Total(taken + if Apply(s, c).1.None? then [c] else [], Moves)
  {
    if Apply(s, c).1.None? {
      CallMoves(s, c);
      TotalSnoc(taken, c, Moves);
    } else {
      RefusedChangesNothing(s, c);
      assert taken + [] == taken;
    }
    hide Net, Apply, StakingMoves, Total;
  }

  lemma {:induction false} StakingOverRuns(s: BuilderState, calls: seq<BuilderCall>)
    requires s.staking.None?
    ensures Run(s, calls).staking == LastStaking(Accepted(s, calls))
  {
    if calls != [] {
      var init, last := calls[..|calls| - 1], calls[|calls| - 1];
      StakingOverRuns(s, init);
      var taken := Accepted(s, init);
      assert (taken + [last])[..|taken|] == taken && taken + [] == taken;
      StakingStep(Run(s, init), last);
      hide Apply;
    }
  }

  lemma StakingStep(s: BuilderState, c: BuilderCall)
    ensures Apply(s, c).0.staking ==
            if Apply(s, c).1.None? && c.PutStakingAction? then Some(c.action) else s.staking
  {
  }

  /** What a run from a new builder moves in all. */
  ghost function RunMoves(p: Schedule, target: u32, config: BuildConfig, calls: seq<BuilderCall>): int {
    var taken := Accepted(New(p, target, config), calls);
    Total(taken, Moves) + StakingMoves(LastStaking(taken))
  }

  /** Over every run the balance is what the calls taken moved, and what the last staking action moves. */
  lemma BalanceOverRuns(p: Schedule, target: u32, config: BuildConfig, calls: seq<BuilderCall>)
    requires ValueBalance(Run(New(p, target, config), calls)).Amount?
    ensures ValueBalance(Run(New(p, target, config), calls)).value == RunMoves(p, target, config, calls)
  {
    var start := New(p, target, config);
    NewIsEmpty(p, target, config);
    NetOverRuns(start, calls);
    StakingOverRuns(start, calls);
    ValueIsNet(Run(start, calls));
    hide Net, Run, New, Accepted, ValueBalance, StakingMoves, LastStaking, Total;
  }

  /** The balance check compares the balance with the fee and reports exactly what is missing or left. */
  lemma CheckedAgainstFee(s: BuilderState, fee: Zatoshis)
    requires ValueBalance(s).Amount?
    ensures var v: int := ValueBalance(s).value;
      CheckBalance(s, fee) ==
        if v == fee then None
        else if v > fee then Some(ChangeRequired(v - fee))
        else if fee - v <= MAX_MONEY then Some(InsufficientFunds(fee - v))
        else Some(Balance(Underflow))
  {
    hide ValueBalance;
  }

  /**
   * A build passes its checks exactly when its version is valid and has a place for everything in use
   * and, for a coinbase, the expiry height is the target; for all others, there is a fee and the
   * balance is that fee.
   */
  lemma ChecksPassExactly(s: BuilderState, fee: Option<Zatoshis>)
    requires Inv(s)
    ensures BuildChecks(s, fee).None? <==>
      && ValidInBranch(s.version, s.branch) && HasPlaceForAll(s, s.version)
      && if s.config.CoinbaseConfig? then s.expiry == s.target
         else fee.Some? && ValueBalance(s) == Amount(fee.value as int)
  {
    VersionsTaken(s, s.version);
    hide ValueBalance, HasPlaceForAll, CheckVersion;
  }

  lemma NewIsEmpty(p: Schedule, target: u32, config: BuildConfig)
    ensures Net(New(p, target, config)) == 0 && New(p, target, config).staking.None?
  {
    hide ForHeight;
  }

  //////////////////////////////////////////////////////////////////////////////
  // What is built
  //////////////////////////////////////////////////////////////////////////////

  function OutPointsOf(calls: seq<BuilderCall>): seq<OutPoint> {
    if calls == [] then [] else
      OutPointsOf(calls[..|calls| - 1]) + match calls[|calls| - 1]
        case AddTransparentInput(coin, _) => [coin.outpoint]
        case _ => []
  }

  function OutputsOf(calls: seq<BuilderCall>): seq<TxOut> {
    if calls == [] then [] else
      OutputsOf(calls[..|calls| - 1]) + match calls[|calls| - 1]
        case AddTransparentOutput(out, _) => [out]
        case _ => []
  }

  function LastVersion(calls: seq<BuilderCall>, otherwise: TxVersion): TxVersion {
    if calls == [] then otherwise
    else match calls[|calls| - 1]
      case ProposeVersion(v) => v
      case _ => LastVersion(calls[..|calls| - 1], otherwise)
  }

  function OutPointOf(c: Coin): OutPoint { c.outpoint }

  lemma {:induction false} PartsOverRuns(s: BuilderState, calls: seq<BuilderCall>)
    requires s.inputs == [] && s.outputs == []
    ensures var r, taken := Run(s, calls), Accepted(s, calls);
      && Map(r.inputs, OutPointOf) == OutPointsOf(taken) && r.outputs == OutputsOf(taken)
      && r.version == LastVersion(taken, s.version)
  {
    if calls != [] {
      var init, last := calls[..|calls| - 1], calls[|calls| - 1];
      PartsOverRuns(s, init);
      var before, taken := Run(s, init), Accepted(s, init);
      PartsStep(before, last);
      hide Apply;
      if Apply(before, last).1.None? {
        assert (taken + [last])[..|taken|] == taken;
      } else {
        assert taken + [] == taken;
      }
    }
  }

  /** What one call adds, if it is taken. */
  lemma PartsStep(s: BuilderState, c: BuilderCall)
    ensures var (r, e) := Apply(s, c);
      if e.Some? then r == s else
        && r.outputs == s.outputs + (if c.AddTransparentOutput? then [c.out] else [])
        && Map(r.inputs, OutPointOf) ==
           Map(s.inputs, OutPointOf) + (if c.AddTransparentInput? then [c.coin.outpoint] else [])
        && r.version == if c.ProposeVersion? then c.v else s.version
  {
    if c.AddTransparentInput? {
      assert Map(s.inputs + [c.coin], OutPointOf) == Map(s.inputs, OutPointOf) + [c.coin.outpoint];
    }
    hide CheckVersion;
  }

  /** The expiry height of a builder that is not told another one: 40 blocks on, or the last height there is. */
  function DefaultExpiry(config: BuildConfig, target: u32): u32 {
    if config.CoinbaseConfig? then target
    else if target <= 0xffff_ffff - 40 then target + 40
    else 0xffff_ffff
  }

  /**
   * Over every run, a finished transaction has the outpoints and the outputs that were taken, in their
   * order, the last version taken, the last expiry asked for and the last staking action taken.
   */
  lemma BuiltOverRuns(p: Schedule, target: u32, config: BuildConfig, calls: seq<BuilderCall>, fee: Option<Zatoshis>,
                      b: Bundles)
    requires var s := Run(New(p, target, config), calls);
      BuildOutcome(s, fee, b).Built? && KeepsTransparent(s, b.transparent)
    ensures var d := BuildOutcome(Run(New(p, target, config), calls), fee, b).data;
            var taken := Accepted(New(p, target, config), calls);
            var suggested := if config.CrosslinkConfig? then VCrosslink else SuggestedForBranch(ForHeight(p, target));
      && (!config.CoinbaseConfig? ==> Map(Vin(d.transparent), PrevoutOf) == OutPointsOf(taken))
      && Vout(d.transparent) == OutputsOf(taken)
      && d.version == LastVersion(taken, suggested) && d.branch == ForHeight(p, target)
      && d.lockTime == 0 && d.expiry == LastExpiry(calls, DefaultExpiry(config, target))
      && d.staking == LastStaking(taken) && d.sprout.None?
      && d.sapling == b.sapling && d.orchard == b.orchard && d.ironwood == b.ironwood
  {
    var start := New(p, target, config);
    NewParts(p, target, config);
    RunKeepsInv(p, target, config, calls);
    PartsOverRuns(start, calls);
    StakingOverRuns(start, calls);
    ExpiryOverRuns(start, calls);
    var s := Run(start, calls);
    hide Run, New, ForHeight, BuildChecks, Accepted, LastExpiry, LastStaking, LastVersion, Net, Total, OutPointsOf;
    hide OutputsOf, Inv, PaddingKept, IsCoinbase, TxBytes, DefaultExpiry, SuggestedForBranch, Apply;
    TransparentIsKept(s, b.transparent);
    hide KeepsTransparent, Map;
  }

  lemma TransparentIsKept(s: BuilderState, b: Option<TransparentBundle>)
    requires KeepsTransparent(s, b)
    ensures Vout(b) == s.outputs
    ensures !s.config.CoinbaseConfig? ==> Map(Vin(b), PrevoutOf) == Map(s.inputs, OutPointOf)
  {
    if !s.config.CoinbaseConfig? {
      assert Map(Vin(b), PrevoutOf) == Map(s.inputs, OutPointOf);
    }
  }

  function PrevoutOf(i: TxIn): OutPoint { i.prevout }

  lemma NewParts(p: Schedule, target: u32, config: BuildConfig)
    ensures var s := New(p, target, config);
      && s.inputs == [] && s.outputs == [] && s.staking.None?
      && s.version == (if config.CrosslinkConfig? then VCrosslink else SuggestedForBranch(ForHeight(p, target)))
      && s.expiry == DefaultExpiry(config, target)
  {
    hide ForHeight;
  }

  //////////////////////////////////////////////////////////////////////////////
  // What it costs
  //////////////////////////////////////////////////////////////////////////////

  lemma {:induction false} TotalOfEqual<T>(xs: seq<T>, f: T -> int, n: int)
    requires forall x :: x in xs ==> f(x) == n
    ensures Total(xs, f) == |xs| * n
  {
    if xs != [] {
      TotalOfEqual(xs[..|xs| - 1], f, n);
      assert |xs| * n == (|xs| - 1) * n + n;
    }
  }

  /** A number of whole units takes that many. */
  lemma WholeUnits(n: nat, unit: Positive)
    ensures CeilDiv(n * unit, unit) == n
  {
    CeilDivIsLeast(n * unit, unit, n);
    if n > 0 {
      CeilDivIsLeast(n * unit, unit, n - 1);
      OneUnitLess(n, unit);
    }
    hide CeilDiv;
  }

  lemma OneUnitLess(n: nat, unit: Positive)
    requires n > 0
    ensures (n - 1) * unit < n * unit
  {
  }

  /** A Sapling action has room for a spend and for an output, as many as are built. */
  function SaplingActions(s: BuilderState, n: Counting): nat
    requires Countable(s, n)
  {
    match s.sapling
    case None => 0
    case Some(notes) =>
      var built := n.saplingOutputs(|notes.spends|, |notes.outputs|).value;
      if built < |notes.spends| then |notes.spends| else built
  }

  /** The actions that are built for so many spends and so many outputs, change included. */
  function PoolActions(o: Option<OrchardNotes>, n: Counting): nat
    requires Actions(o, n).Some?
  {
    match o
    case None => 0
    case Some(notes) =>
      n.actions(notes.bundleType, notes.version, |notes.spends|, |notes.outputs| + |notes.changes|).value
  }

  lemma CountedAlike(s: BuilderState, n: Counting)
    requires Countable(s, n)
    ensures SaplingActions(s, n) == Zip317.Max(SaplingSpends(s), SaplingOutputs(s, n).value)
    ensures PoolActions(s.orchard, n) == Actions(s.orchard, n).value
    ensures PoolActions(s.ironwood, n) == Actions(s.ironwood, n).value
  {
  }

  /**
   * Under the standard rule, with P2PKH inputs and 25-byte output scripts only, each input or output is one
   * transparent action, and so is each Sapling spend or output; 5000 zatoshis an action, at least for two.
   */
  lemma StandardFee(s: BuilderState, n: Counting)
    requires Countable(s, n)
    requires forall i :: 0 <= i < |s.inputs| ==> s.inputs[i].spending == P2pkh
    requires forall i :: 0 <= i < |s.outputs| ==> |s.outputs[i].script| == 25
    ensures var transparent := if |s.inputs| < |s.outputs| then |s.outputs| else |s.inputs|;
            var actions := transparent + SaplingActions(s, n) + PoolActions(s.orchard, n) + PoolActions(s.ironwood, n);
            var fee := if actions <= 2 then 10_000 else 5_000 * actions;
      FeeOf(s, STANDARD, n) == if fee <= MAX_MONEY then Some(fee) else None
  {
    StandardActions(s, n);
    PlainRate(CountsOfBuilder(s, n));
    hide SaplingActions, PoolActions, Countable, CountsOfBuilder, RawFee, LogicalActions;
  }

  lemma StandardActions(s: BuilderState, n: Counting)
    requires Countable(s, n)
    requires forall i :: 0 <= i < |s.inputs| ==> s.inputs[i].spending == P2pkh
    requires forall i :: 0 <= i < |s.outputs| ==> |s.outputs[i].script| == 25
    ensures LogicalActions(STANDARD, CountsOfBuilder(s, n)) ==
            (if |s.inputs| < |s.outputs| then |s.outputs| else |s.inputs|)
            + SaplingActions(s, n) + PoolActions(s.orchard, n) + PoolActions(s.ironwood, n)
  {
    CountedAlike(s, n);
    StandardSizes(s.inputs, s.outputs);
    WholeUnits(|s.inputs|, 150);
    WholeUnits(|s.outputs|, 34);
    hide CeilDiv, SaplingActions, PoolActions, SaplingSpends, SaplingOutputs, Actions, Countable, Total, SizeOfCoin;
    hide SizeOfOutput, KnownSize;
  }

  lemma PlainRate(c: Counts)
    ensures var actions := LogicalActions(STANDARD, c);
      RawFee(STANDARD, c) == if actions <= 2 then 10_000 else 5_000 * actions
  {
    hide LogicalActions;
  }

  lemma StandardSizes(inputs: seq<Coin>, outputs: seq<TxOut>)
    requires forall i :: 0 <= i < |inputs| ==> inputs[i].spending == P2pkh
    requires forall i :: 0 <= i < |outputs| ==> |outputs[i].script| == 25
    ensures Total(Map(inputs, SizeOfCoin), KnownSize<OutPoint>) == |inputs| * 150
    ensures Sum(Map(outputs, SizeOfOutput)) == |outputs| * 34
  {
    TotalOfEqual(Map(inputs, SizeOfCoin), KnownSize<OutPoint>, 150);
    forall x | x in Map(outputs, SizeOfOutput) ensures Itself(x) == 34 {
      var i :| 0 <= i < |outputs| && x == SizeOfOutput(outputs[i]);
    }
    TotalOfEqual<int>(Map(outputs, SizeOfOutput), Itself, 34);
  }
}
