/** The mutable builder, and the two balance computations step by step. */
module Builders {
  import opened ByteStrings
  import opened Io
  import opened Orchard
  import opened Schedules
  import opened Sprout
  import opened Staking
  import opened Transactions
  import opened TransactionIo
  import opened Transparent
  import opened TxBuilder
  import opened TxVersions
  import opened Values
  import opened Zip317

  //////////////////////////////////////////////////////////////////////////////
  // Adding up
  //////////////////////////////////////////////////////////////////////////////

  method AddUp(values: seq<Zatoshis>) returns (total: int)
    ensures total == Sum(values)
  {
    total := 0;
    for i := 0 to |values|
      invariant total == Sum(values[..i])
    {
      assert values[..i + 1][..i] == values[..i];
      total := total + values[i];
    }
    assert values[..|values|] == values;
  }

  lemma {:induction false} TotalOfMap<T>(xs: seq<T>, f: T -> int)
    ensures Sum(Map(xs, f)) == Total(xs, f)
  {
    if xs != [] {
      TotalOfMap(xs[..|xs| - 1], f);
      assert Map(xs, f)[..|xs| - 1] == Map(xs[..|xs| - 1], f);
    }
  }

  method TransparentBalanceOf(inputs: seq<Coin>, outputs: seq<TxOut>) returns (r: Checked<ZatBalance>)
    ensures r == TransparentBalance(inputs, outputs)
  {
    TotalOfMap(inputs, CoinValue);
    TotalOfMap(outputs, OutValue);
    var ins: seq<Zatoshis> := seq(|inputs|, i requires 0 <= i < |inputs| => inputs[i].value);
    var outs: seq<Zatoshis> := seq(|outputs|, i requires 0 <= i < |outputs| => outputs[i].value);
    assert ins == Map(inputs, CoinValue) && outs == Map(outputs, OutValue);
    var inSum := SumZatoshis(ins);
    if inSum.None? {
      return OutOfRange(Overflow);
    }
    var outSum := SumZatoshis(outs);
    if outSum.None? {
      return OutOfRange(Overflow);
    }
    PrefixesNeverExceed<int>(ins, 0, Itself);
    PrefixesNeverExceed<int>(outs, 0, Itself);
    r := Amount(inSum.value as int - outSum.value as int);
  }

  method AddUpBalances(balances: seq<ZatBalance>) returns (r: Checked<ZatBalance>)
    ensures r == AddedUp(balances)
  {
    var sum := SumBalances(balances);
    r := if sum.Some? then Amount(sum.value) else OutOfRange(Overflow);
  }

  lemma {:induction false} SpentStops(vin: seq<TxIn>, k: nat, lookup: Lookup)
    requires k <= |vin|
    requires Spent(vin[..k], lookup).OutOfRange? || Spent(vin[..k], lookup) == Amount(None)
    ensures Spent(vin, lookup) == Spent(vin[..k], lookup)
    decreases |vin|
  {
    if k == |vin| {
      assert vin[..k] == vin;
    } else {
      var init := vin[..|vin| - 1];
      assert init[..k] == vin[..k];
      SpentStops(init, k, lookup);
    }
  }

  method AddUpSpent(vin: seq<TxIn>, lookup: Lookup) returns (r: Checked<Option<Zatoshis>>)
    ensures r == Spent(vin, lookup)
  {
    var total: Zatoshis := 0;
    for i := 0 to |vin|
      invariant Spent(vin[..i], lookup) == Amount(Some(total))
    {
      assert vin[..i + 1][..i] == vin[..i];
      var value := lookup(vin[i].prevout);
      if value.None? {
        SpentStops(vin, i + 1, lookup);
        return Amount(None);
      }
      var sum := AddZatoshis(total, value.value);
      if sum.None? {
        SpentStops(vin, i + 1, lookup);
        return OutOfRange(Overflow);
      }
      total := sum.value;
    }
    assert vin[..|vin|] == vin;
    r := Amount(Some(total));
  }

  /** The transparent bundle's balance, by what is known of the outputs it spends. */
  method TransparentBalancePaid(b: Option<TransparentBundle>, lookup: Lookup) returns (r: Checked<Option<ZatBalance>>)
    ensures r == TransparentPaid(b, lookup)
  {
    if b.None? {
      return Amount(Some(0));
    }
    var spent :- AddUpSpent(b.value.vin, lookup);
    if spent.None? {
      return Amount(None);
    }
    var vout := b.value.vout;
    var outs: seq<Zatoshis> := seq(|vout|, i requires 0 <= i < |vout| => vout[i].value);
    assert outs == Map(vout, OutValue);
    TotalOfMap(vout, OutValue);
    var outSum := SumZatoshis(outs);
    if outSum.None? {
      return OutOfRange(Overflow);
    }
    r := Amount(Some(spent.value as int - outSum.value as int));
  }

  method AddUpSprout(b: Option<SproutBundle>) returns (r: Checked<ZatBalance>)
    ensures r == SproutBalance(b)
  {
    if b.None? {
      return Amount(0);
    }
    var joinsplits := b.value.joinsplits;
    var nets: seq<ZatBalance> := seq(|joinsplits|, i requires 0 <= i < |joinsplits| => NetValue(joinsplits[i]));
    assert nets == Map(joinsplits, NetValueOf);
    r := AddUpBalances(nets);
  }

  /** `fee_paid`. */
  method FeePaid(d: TxData, lookup: Lookup) returns (r: Checked<Option<Zatoshis>>)
    ensures r == FeePaidOf(d, lookup)
  {
    hide TransparentPaid, SproutBalance;
    var t :- TransparentBalancePaid(d.transparent, lookup);
    if t.None? {
      return Amount(None);
    }
    var sprout :- AddUpSprout(d.sprout);
    var balances: seq<ZatBalance> :=
      [t.value, sprout, SaplingBundleBalance(d.sapling), OrchardBundleBalance(d.orchard),
       OrchardBundleBalance(d.ironwood), Contribution(d.staking)];
    assert balances == PaidBalances(d, t.value, sprout);
    var sum :- AddUpBalances(balances);
    var fee :- ZatoshisFromBalance(sum);
    r := Amount(Some(fee));
  }

  /** Sizes and counts fit the machine word wherever the fee rule adds them. */
  ghost predicate FeeFits(s: BuilderState, rule: FeeRule, n: Counting) {
    Countable(s, n) ==>
      && Total(Map(s.inputs, SizeOfCoin), KnownSize<OutPoint>) < 0x1_0000_0000_0000_0000
      && (UnknownOutpoints(Map(s.inputs, SizeOfCoin)) == [] ==> FitsUsize(rule, CountsOfBuilder(s, n)))
  }

  //////////////////////////////////////////////////////////////////////////////
  // The builder
  //////////////////////////////////////////////////////////////////////////////

  class Builder {
    var version: TxVersion
    const branch: BranchId
    const config: BuildConfig
    const target: u32
    var expiry: u32
    var inputs: seq<Coin>
    var outputs: seq<TxOut>
    var sapling: Option<SaplingNotes>
    var orchard: Option<OrchardNotes>
    const orchardVersion: Option<BundleVersion>
    var ironwood: Option<OrchardNotes>
    var staking: Option<StakingAction>

    function State(): BuilderState
      reads this
    {
      BuilderState(version, branch, config, target, expiry, inputs, outputs, sapling, orchard, orchardVersion, ironwood,
                   staking)
    }

    constructor (p: Schedule, target: u32, config: BuildConfig)
      ensures State() == New(p, target, config) && Inv(State())
    {
      NewKeepsInv(p, target, config);
      hide ForHeight;
      var b := ForHeight(p, target);
      var v := DefaultVersion(config, b);
      var bundleVersion := BundleVersionForBranch(b, OrchardPool);
      var o := if bundleVersion.Some? then NewOrchard(config, bundleVersion.value) else None;
      this.branch := b;
      this.version := v;
      this.config := config;
      this.target := target;
      this.expiry := if config.CoinbaseConfig? then target else SaturatingAdd(target, DEFAULT_TX_EXPIRY_DELTA);
      this.inputs, this.outputs := [], [];
      this.sapling := NewSapling(config);
      this.orchard := o;
      this.orchardVersion := if o.Some? then bundleVersion else None;
      this.ironwood := if HasIronwood(v) then NewIronwood(config) else None;
      this.staking := None;
    }

    /** `check_version_compatibility`. */
    method CheckVersionCompatibility(v: TxVersion) returns (error: Option<BuildError>)
      ensures error == CheckVersion(State(), v)
    {
      if HasCrosslink(v) != config.CrosslinkConfig? {
        return Some(CrosslinkConfigMismatch);
      }
      if staking.Some? && !HasCrosslink(v) {
        return Some(StakingActionUnsupported(v));
      }
      if !ValidInBranch(v, branch) {
        return Some(TargetIncompatible(branch, v, None));
      }
      if !(HasSapling(v) && SaplingActive(branch))
         && sapling.Some? && (sapling.value.spends != [] || sapling.value.outputs != []) {
        return Some(TargetIncompatible(branch, v, Some(SaplingPoolType)));
      }
      if !(HasOrchard(v) && OrchardActive(branch)) && NotesInUse(orchard) {
        return Some(TargetIncompatible(branch, v, Some(OrchardPoolType)));
      }
      if !(HasIronwood(v) && branch.Nu6_3Branch?) && NotesInUse(ironwood) {
        return Some(TargetIncompatible(branch, v, None));
      }
      error := None;
    }

    method ProposeVersion(v: TxVersion) returns (error: Option<BuildError>)
      modifies this`version
      ensures (State(), error) == Apply(old(State()), BuilderCall.ProposeVersion(v))
    {
      error := CheckVersionCompatibility(v);
      if error.None? {
        version := v;
      }
    }

    method WithExpiryHeight(height: u32)
      modifies this`expiry
      ensures (State(), None) == Apply(old(State()), BuilderCall.WithExpiryHeight(height))
    {
      expiry := height;
    }

    method AddSaplingSpend(value: Zatoshis, accepted: bool) returns (error: Option<BuildError>)
      modifies this`sapling
      ensures (State(), error) == Apply(old(State()), BuilderCall.AddSaplingSpend(value, accepted))
    {
      match sapling {
        case None =>
          error := Some(SaplingBuilderNotAvailable);
        case Some(n) =>
          if !accepted {
            return Some(PoolRefused);
          }
          assert n.outputs + [] == n.outputs;
          sapling := Some(n.(spends := n.spends + [value]));
          error := None;
      }
    }

    method AddSaplingOutput(value: Zatoshis, accepted: bool) returns (error: Option<BuildError>)
      modifies this`sapling
      ensures (State(), error) == Apply(old(State()), BuilderCall.AddSaplingOutput(value, accepted))
    {
      match sapling {
        case None =>
          error := Some(SaplingBuilderNotAvailable);
        case Some(n) =>
          if !accepted {
            return Some(PoolRefused);
          }
          assert n.spends + [] == n.spends;
          sapling := Some(n.(outputs := n.outputs + [value]));
          error := None;
      }
    }

    method AddOrchardSpend(value: Zatoshis, accepted: bool) returns (error: Option<BuildError>)
      modifies this`orchard
      ensures (State(), error) == Apply(old(State()), BuilderCall.AddOrchardSpend(value, accepted))
    {
      match orchard {
        case None =>
          error := Some(OrchardBuilderNotAvailable);
        case Some(n) =>
          if !accepted {
            return Some(PoolRefused);
          }
          assert n.outputs + [] == n.outputs && n.changes + [] == n.changes;
          orchard := Some(n.(spends := n.spends + [value]));
          error := None;
      }
    }

    method AddOrchardOutput(value: Zatoshis, accepted: bool) returns (error: Option<BuildError>)
      modifies this`orchard
      ensures (State(), error) == Apply(old(State()), BuilderCall.AddOrchardOutput(value, accepted))
    {
      match orchard {
        case None =>
          error := Some(OrchardBuilderNotAvailable);
        case Some(n) =>
          if !accepted {
            return Some(PoolRefused);
          }
          assert n.spends + [] == n.spends && n.changes + [] == n.changes;
          orchard := Some(n.(outputs := n.outputs + [value]));
          error := None;
      }
    }

    method AddOrchardChangeOutput(value: Zatoshis, accepted: bool) returns (error: Option<BuildError>)
      modifies this`orchard
      ensures (State(), error) == Apply(old(State()), BuilderCall.AddOrchardChangeOutput(value, accepted))
    {
      match orchard {
        case None =>
          error := Some(OrchardBuilderNotAvailable);
        case Some(n) =>
          if !accepted {
            return Some(PoolRefused);
          }
          assert n.spends + [] == n.spends && n.outputs + [] == n.outputs;
          orchard := Some(n.(changes := n.changes + [value]));
          error := None;
      }
    }

    method AddIronwoodSpend(value: Zatoshis, noteIsV3: bool, accepted: bool) returns (error: Option<BuildError>)
      modifies this`ironwood
      ensures (State(), error) == Apply(old(State()), BuilderCall.AddIronwoodSpend(value, noteIsV3, accepted))
    {
      match ironwood {
        case None =>
          error := Some(IronwoodBuilderNotAvailable);
        case Some(n) =>
          if !noteIsV3 {
            return Some(NoteVersionUnsupported);
          }
          if !accepted {
            return Some(PoolRefused);
          }
          assert n.outputs + [] == n.outputs && n.changes + [] == n.changes;
          ironwood := Some(n.(spends := n.spends + [value]));
          error := None;
      }
    }

    method AddIronwoodOutput(value: Zatoshis, accepted: bool) returns (error: Option<BuildError>)
      modifies this`ironwood
      ensures (State(), error) == Apply(old(State()), BuilderCall.AddIronwoodOutput(value, accepted))
    {
      match ironwood {
        case None =>
          error := Some(IronwoodBuilderNotAvailable);
        case Some(n) =>
          if !accepted {
            return Some(PoolRefused);
          }
          assert n.spends + [] == n.spends && n.changes + [] == n.changes;
          ironwood := Some(n.(outputs := n.outputs + [value]));
          error := None;
      }
    }

    method AddTransparentInput(coin: Coin, accepted: bool) returns (error: Option<BuildError>)
      modifies this`inputs
      ensures (State(), error) == Apply(old(State()), BuilderCall.AddTransparentInput(coin, accepted))
    {
      if !accepted {
        return Some(PoolRefused);
      }
      inputs := inputs + [coin];
      error := None;
    }

    method AddTransparentOutput(out: TxOut, accepted: bool) returns (error: Option<BuildError>)
      modifies this`outputs
      ensures (State(), error) == Apply(old(State()), BuilderCall.AddTransparentOutput(out, accepted))
    {
      if !accepted {
        return Some(PoolRefused);
      }
      outputs := outputs + [out];
      error := None;
    }

    method PutStakingAction(action: StakingAction) returns (error: Option<BuildError>)
      modifies this`staking
      ensures (State(), error) == Apply(old(State()), BuilderCall.PutStakingAction(action))
    {
      if !HasCrosslink(version) {
        return Some(StakingActionUnsupported(version));
      }
      staking := Some(action);
      error := None;
    }

    /** `value_balance`. */
    method AddUpPools() returns (r: Checked<ZatBalance>)
      ensures r == ValueBalance(State())
    {
      hide TransparentBalance, Sum;
      var t := TransparentBalanceOf(inputs, outputs);
      if t.OutOfRange? {
        return t;
      }
      var s, o, i := 0, 0, 0;
      if sapling.Some? {
        var spends := AddUp(sapling.value.spends);
        var outs := AddUp(sapling.value.outputs);
        s := spends - outs;
      }
      if orchard.Some? {
        o := AddUpNotes(orchard.value);
      }
      if ironwood.Some? {
        i := AddUpNotes(ironwood.value);
      }
      if !(InBalanceRange(s) && InBalanceRange(o) && InBalanceRange(i)) {
        return OutOfRange(Overflow);
      }
      r := AddUpBalances([t.value, s, o, i, Contribution(staking)]);
    }

    static method AddUpNotes(n: OrchardNotes) returns (v: int)
      ensures v == OrchardBalance(Some(n))
    {
      var spends := AddUp(n.spends);
      var outs := AddUp(n.outputs);
      var changes := AddUp(n.changes);
      v := spends - outs - changes;
    }

    /** `get_fee`. */
    method GetFee(rule: FeeRule, n: Counting) returns (fee: Option<Zatoshis>)
      requires FeeFits(State(), rule, n)
      ensures fee == FeeOf(State(), rule, n)
    {
      hide CountsOf, RawFee, KnownSize, FitsUsize;
      var ironwoodActions := Actions(ironwood, n);
      if ironwoodActions.None? {
        return None;
      }
      var outs := SaplingOutputs(State(), n);
      if outs.None? {
        return None;
      }
      var orchardActions := Actions(orchard, n);
      if orchardActions.None? {
        return None;
      }
      var r := FeeRequired(rule, Map(inputs, SizeOfCoin), Map(outputs, SizeOfOutput), SaplingSpends(State()),
                           outs.value, orchardActions.value, ironwoodActions.value);
      fee := if r.Required? then Some(r.fee) else None;
    }

    /** `build`, given what the pools' builders return. */
    method Build(rule: FeeRule, n: Counting, b: Bundles) returns (r: Outcome)
      requires !config.CoinbaseConfig? ==> FeeFits(State(), rule, n)
      ensures r == BuildOutcome(State(), if config.CoinbaseConfig? then None else FeeOf(State(), rule, n), b)
    {
      hide ValueBalance, CheckVersion, FeeOf, FeeFits, TxBytes;
      var fee: Option<Zatoshis> := None;
      if !config.CoinbaseConfig? {
        fee := GetFee(rule, n);
        if fee.None? {
          return Refused(FeeRefused);
        }
      }
      r := BuildInternal(fee, b);
    }

    /** `build_internal`. */
    method BuildInternal(fee: Option<Zatoshis>, b: Bundles) returns (r: Outcome)
      requires config.CoinbaseConfig? <==> fee.None?
      ensures r == BuildOutcome(State(), fee, b)
    {
      hide ValueBalance, CheckVersion, TxBytes;
      var incompatible := CheckVersionCompatibility(version);
      if incompatible.Some? {
        return Refused(incompatible.value);
      }
      if config.CoinbaseConfig? && expiry != target {
        return Refused(CoinbaseExpiryHeightMismatch(target, expiry));
      }
      if fee.Some? {
        var balance := AddUpPools();
        if balance.OutOfRange? {
          return Refused(Balance(balance.error));
        }
        var left := balance.value - fee.value as int;
        if left < -MAX_MONEY {
          return Refused(Balance(Underflow));
        }
        if left < 0 {
          return Refused(InsufficientFunds(0 - left));
        }
        if left > 0 {
          return Refused(ChangeRequired(left));
        }
      }
      var d := TxData(version, branch, 0, expiry, b.transparent, None, b.sapling, b.orchard, b.ironwood, staking);
      if !HasOverwinter(version) {
        return Panicked(SignatureHash);
      }
      if Legacy(version) {
        var w := new Writer();
        var written := WriteTx(w, d);
        if written.Failure? {
          return Panicked(Freezing);
        }
      }
      r := Built(d);
    }
  }
}
