/** Network upgrades, consensus branches, and the two descriptions of which branch rules a height. */
module Schedules {
  import opened ByteStrings
  import opened Io

  datatype NetworkUpgrade =
    | Overwinter | Sapling | Blossom | Heartwood | Canopy | Nu5 | Nu6 | Nu6_1 | Nu6_2 | Nu6_3

  datatype BranchId =
    | SproutBranch | OverwinterBranch | SaplingBranch | BlossomBranch | HeartwoodBranch | CanopyBranch
    | Nu5Branch | Nu6Branch | Nu6_1Branch | Nu6_2Branch | Nu6_3Branch

  const UPGRADES_IN_ORDER: seq<NetworkUpgrade> :=
    [Overwinter, Sapling, Blossom, Heartwood, Canopy, Nu5, Nu6, Nu6_1, Nu6_2, Nu6_3]

  const BRANCHES_IN_ORDER: seq<BranchId> :=
    [SproutBranch, OverwinterBranch, SaplingBranch, BlossomBranch, HeartwoodBranch, CanopyBranch,
     Nu5Branch, Nu6Branch, Nu6_1Branch, Nu6_2Branch, Nu6_3Branch]

  /** The activation height of each upgrade that has one. */
  type Schedule = NetworkUpgrade -> Option<u32>

  function BranchOf(nu: NetworkUpgrade): BranchId {
    match nu
    case Overwinter => OverwinterBranch
    case Sapling => SaplingBranch
    case Blossom => BlossomBranch
    case Heartwood => HeartwoodBranch
    case Canopy => CanopyBranch
    case Nu5 => Nu5Branch
    case Nu6 => Nu6Branch
    case Nu6_1 => Nu6_1Branch
    case Nu6_2 => Nu6_2Branch
    case Nu6_3 => Nu6_3Branch
  }

  function BranchToU32(b: BranchId): u32 {
    match b
    case SproutBranch => 0
    case OverwinterBranch => 0x5ba8_1b19
    case SaplingBranch => 0x76b8_09bb
    case BlossomBranch => 0x2bb4_0e60
    case HeartwoodBranch => 0xf5b9_230b
    case CanopyBranch => 0xe9ff_75a6
    case Nu5Branch => 0xc2d6_d0b4
    case Nu6Branch => 0xc8e7_1055
    case Nu6_1Branch => 0x4dec_4df0
    case Nu6_2Branch => 0x5437_f330
    case Nu6_3Branch => 0x37a5_165b
  }

  function BranchFromU32(v: u32): (b: Option<BranchId>)
    ensures b.Some? ==> BranchToU32(b.value) == v
    ensures b.None? ==> forall c :: BranchToU32(c) != v
  {
    if v == 0 then Some(SproutBranch)
    else if v == 0x5ba8_1b19 then Some(OverwinterBranch)
    else if v == 0x76b8_09bb then Some(SaplingBranch)
    else if v == 0x2bb4_0e60 then Some(BlossomBranch)
    else if v == 0xf5b9_230b then Some(HeartwoodBranch)
    else if v == 0xe9ff_75a6 then Some(CanopyBranch)
    else if v == 0xc2d6_d0b4 then Some(Nu5Branch)
    else if v == 0xc8e7_1055 then Some(Nu6Branch)
    else if v == 0x4dec_4df0 then Some(Nu6_1Branch)
    else if v == 0x5437_f330 then Some(Nu6_2Branch)
    else if v == 0x37a5_165b then Some(Nu6_3Branch)
    else None
  }

  lemma BranchIdsDistinct(b: BranchId, c: BranchId)
    ensures BranchToU32(b) == BranchToU32(c) ==> b == c
  {
  }

  function SaplingActive(b: BranchId): bool {
    !b.SproutBranch? && !b.OverwinterBranch?
  }

  function OrchardActive(b: BranchId): bool {
    b.Nu5Branch? || b.Nu6Branch? || b.Nu6_1Branch? || b.Nu6_2Branch? || b.Nu6_3Branch?
  }

  //////////////////////////////////////////////////////////////////////////////
  // The two descriptions
  //////////////////////////////////////////////////////////////////////////////

  predicate IsActive(p: Schedule, nu: NetworkUpgrade, height: u32) {
    p(nu).Some? && p(nu).value <= height
  }

  /** The last of the first `n` upgrades that is active at `height`. */
  function LastActive(p: Schedule, height: u32, n: nat): BranchId
    requires n <= |UPGRADES_IN_ORDER|
  {
    if n == 0 then SproutBranch
    else if IsActive(p, UPGRADES_IN_ORDER[n - 1], height) then BranchOf(UPGRADES_IN_ORDER[n - 1])
    else LastActive(p, height, n - 1)
  }

  function ForHeight(p: Schedule, height: u32): BranchId {
    LastActive(p, height, |UPGRADES_IN_ORDER|)
  }

  datatype Bounds = Bounds(lower: u32, upper: Option<u32>)

  function From(lower: Option<u32>, upper: Option<u32>): Option<Bounds> {
    match lower
    case None => None
    case Some(l) => Some(Bounds(l, upper))
  }

  function HeightBounds(p: Schedule, b: BranchId): Option<Bounds> {
    match b
    case SproutBranch =>
      (match p(Overwinter)
       case None => None
       case Some(upper) => Some(Bounds(0, Some(upper))))
    case OverwinterBranch => From(p(Overwinter), p(Sapling))
    case SaplingBranch => From(p(Sapling), p(Blossom))
    case BlossomBranch => From(p(Blossom), p(Heartwood))
    case HeartwoodBranch => From(p(Heartwood), p(Canopy))
    case CanopyBranch => From(p(Canopy), p(Nu5))
    case Nu5Branch => From(p(Nu5), p(Nu6))
    case Nu6Branch => From(p(Nu6), p(Nu6_1))
    case Nu6_1Branch => From(p(Nu6_1), p(Nu6_2))
    case Nu6_2Branch => From(p(Nu6_2), p(Nu6_3))
    case Nu6_3Branch => From(p(Nu6_3), None)
  }

  predicate InEpoch(p: Schedule, b: BranchId, height: u32) {
    match HeightBounds(p, b)
    case None => false
    case Some(bounds) => bounds.lower <= height && (bounds.upper.Some? ==> height < bounds.upper.value)
  }

  //////////////////////////////////////////////////////////////////////////////
  // Their agreement
  //////////////////////////////////////////////////////////////////////////////

  /** The position of a branch; branch `n > 0` begins with the `n`-th upgrade. */
  function Index(b: BranchId): (n: nat)
    ensures n < |BRANCHES_IN_ORDER| && BRANCHES_IN_ORDER[n] == b
  {
    match b
    case SproutBranch => 0
    case OverwinterBranch => 1
    case SaplingBranch => 2
    case BlossomBranch => 3
    case HeartwoodBranch => 4
    case CanopyBranch => 5
    case Nu5Branch => 6
    case Nu6Branch => 7
    case Nu6_1Branch => 8
    case Nu6_2Branch => 9
    case Nu6_3Branch => 10
  }

  /** The activation height of branch `n`. */
  function Activation(p: Schedule, n: nat): Option<u32>
    requires 0 < n <= 10
  {
    p(UPGRADES_IN_ORDER[n - 1])
  }

  /** Where `HeightBounds` starts epoch `n`, if it gives it bounds at all. */
  function Start(p: Schedule, n: nat): Option<u32>
    requires n <= 10
  {
    if n > 0 then Activation(p, n) else if p(Overwinter).Some? then Some(0) else None
  }

  /** Where `HeightBounds` ends epoch `n`. */
  function End(p: Schedule, n: nat): Option<u32>
    requires n <= 10
  {
    if n == 10 then None else Activation(p, n + 1)
  }

  predicate Active(p: Schedule, n: nat, height: u32)
    requires 0 < n <= 10
  {
    Activation(p, n).Some? && Activation(p, n).value <= height
  }

  /** The height lies between start and end of epoch `n`. */
  predicate Between(p: Schedule, n: nat, height: u32)
    requires n <= 10
  {
    && Start(p, n).Some? && Start(p, n).value <= height
    && (End(p, n).Some? ==> height < End(p, n).value)
  }

  lemma EpochByIndex(p: Schedule, b: BranchId, height: u32)
    ensures InEpoch(p, b, height) <==> Between(p, Index(b), height)
  {
  }

  lemma {:induction false} LastActiveByIndex(p: Schedule, height: u32, n: nat)
    requires n <= 10
    ensures var k := Index(LastActive(p, height, n));
      && k <= n && (k > 0 ==> Active(p, k, height))
      && forall j :: k < j <= n ==> !Active(p, j, height)
  {
    if n > 0 && !IsActive(p, UPGRADES_IN_ORDER[n - 1], height) {
      LastActiveByIndex(p, height, n - 1);
    } else if n > 0 {
      BranchOfNth(n);
    }
  }

  lemma BranchOfNth(n: nat)
    requires 0 < n <= 10
    ensures BranchOf(UPGRADES_IN_ORDER[n - 1]) == BRANCHES_IN_ORDER[n] && Index(BRANCHES_IN_ORDER[n]) == n
  {
  }

  /**
   * No later upgrade activates inside an epoch: if epoch `n` has bounds and a later upgrade `k` has a
   * height, then upgrade `n + 1` has one too, and it empties the epoch or comes no later than `k`.
   */
  ghost predicate NoOvertaking(p: Schedule) {
    forall n, k :: 0 <= n && n + 1 < k <= 10 && Start(p, n).Some? && Activation(p, k).Some? ==>
      && Activation(p, n + 1).Some?
      && (Activation(p, n + 1).value <= Start(p, n).value || Activation(p, n + 1).value <= Activation(p, k).value)
  }

  /** Sprout has bounds, or never rules a height. */
  ghost predicate SproutBounded(p: Schedule) {
    p(Overwinter).Some? || exists k :: 0 < k <= 10 && Active(p, k, 0)
  }

  ghost predicate DescriptionsAgree(p: Schedule) {
    forall b: BranchId, height: u32 :: InEpoch(p, b, height) <==> ForHeight(p, height) == b
  }

  /** The height lies in epoch `n` exactly when `n` is the last active one. */
  lemma OnlyLastActive(p: Schedule, n: nat, k: nat, height: u32)
    requires NoOvertaking(p) && SproutBounded(p) && n <= 10 && k <= 10
    requires (k > 0 ==> Active(p, k, height)) && forall j :: k < j <= 10 ==> !Active(p, j, height)
    ensures Between(p, n, height) <==> n == k
  {
    assert Activation(p, 1) == p(Overwinter);
    hide Activation;
    assert forall j :: 0 < j <= 10 && Active(p, j, 0) ==> Active(p, j, height);
    if n < k {
      assert n + 1 < k ==> Start(p, n).None? || Activation(p, n + 1).Some?;
    } else if k < n {
      assert !Active(p, n, height);
    } else {
      assert n < 10 ==> !Active(p, n + 1, height);
    }
  }

  lemma AgreeAt(p: Schedule, b: BranchId, height: u32)
    requires NoOvertaking(p) && SproutBounded(p)
    ensures InEpoch(p, b, height) <==> ForHeight(p, height) == b
  {
    var n, k := Index(b), Index(ForHeight(p, height));
    assert n == k <==> ForHeight(p, height) == b;
    EpochByIndex(p, b, height);
    LastActiveByIndex(p, height, 10);
    hide InEpoch, LastActive, Activation, NoOvertaking, SproutBounded, Index;
    OnlyLastActive(p, n, k, height);
  }

  function Max(a: u32, b: u32): u32 {
    if a < b then b else a
  }

  lemma OvertakingDisagrees(p: Schedule, n: nat, k: nat)
    requires DescriptionsAgree(p)
    requires n + 1 < k <= 10 && Start(p, n).Some? && Activation(p, k).Some?
    ensures Activation(p, n + 1).Some?
    ensures Activation(p, n + 1).value <= Start(p, n).value || Activation(p, n + 1).value <= Activation(p, k).value
  {
    hide InEpoch, LastActive;
    var height := Max(Start(p, n).value, Activation(p, k).value);
    var b := BRANCHES_IN_ORDER[n];
    assert Index(b) == n;
    EpochByIndex(p, b, height);
    LastActiveByIndex(p, height, 10);
    assert Active(p, k, height);
    assert !InEpoch(p, b, height);
  }

  /** `height_bounds` and `for_height` agree on all heights exactly on schedules without overtaking. */
  lemma DescriptionsAgreeExactly(p: Schedule)
    ensures DescriptionsAgree(p) <==> NoOvertaking(p) && SproutBounded(p)
  {
    if NoOvertaking(p) && SproutBounded(p) {
      forall b: BranchId, height: u32 ensures InEpoch(p, b, height) <==> ForHeight(p, height) == b {
        AgreeAt(p, b, height);
      }
    }
    if DescriptionsAgree(p) {
      forall n, k | 0 <= n && n + 1 < k <= 10 && Start(p, n).Some? && Activation(p, k).Some?
        ensures Activation(p, n + 1).Some?
        ensures Activation(p, n + 1).value <= Start(p, n).value
             || Activation(p, n + 1).value <= Activation(p, k).value
      {
        OvertakingDisagrees(p, n, k);
      }
      assert InEpoch(p, SproutBranch, 0) <==> ForHeight(p, 0) == SproutBranch;
      LastActiveByIndex(p, 0, 10);
    }
  }

  /** Overwinter is set, heights never decrease, and unset heights come only at the end. */
  ghost predicate Ordered(p: Schedule) {
    && p(Overwinter).Some?
    && forall j, k :: 0 < j < k <= 10 && Activation(p, k).Some? ==>
         Activation(p, j).Some? && Activation(p, j).value <= Activation(p, k).value
  }

  /** On an ordered schedule the epochs partition all heights. */
  lemma OrderedSchedulesAgree(p: Schedule)
    requires Ordered(p)
    ensures DescriptionsAgree(p)
  {
    assert NoOvertaking(p) && SproutBounded(p);
    DescriptionsAgreeExactly(p);
  }

  /** Without Overwinter the two descriptions can part: Sprout rules height 0 but has no bounds. */
  lemma UnboundedSprout()
    ensures var p: Schedule := _ => None;
      ForHeight(p, 0) == SproutBranch && !InEpoch(p, SproutBranch, 0)
  {
    var p: Schedule := _ => None;
    LastActiveByIndex(p, 0, 10);
  }

  /** On any schedule at all, rules never move back as height grows. */
  lemma RulesNeverMoveBack(p: Schedule, low: u32, high: u32)
    requires low <= high
    ensures Index(ForHeight(p, low)) <= Index(ForHeight(p, high))
  {
    LastActiveByIndex(p, low, 10);
    LastActiveByIndex(p, high, 10);
    var k := Index(ForHeight(p, low));
    if k > 0 {
      assert Active(p, k, low) && Active(p, k, high);
    }
  }

  //////////////////////////////////////////////////////////////////////////////
  // The public networks
  //////////////////////////////////////////////////////////////////////////////

  function MainNetwork(nu: NetworkUpgrade): Option<u32> {
    match nu
    case Overwinter => Some(347_500)
    case Sapling => Some(419_200)
    case Blossom => Some(653_600)
    case Heartwood => Some(903_000)
    case Canopy => Some(1_046_400)
    case Nu5 => Some(1_687_104)
    case Nu6 => Some(2_726_400)
    case Nu6_1 => Some(3_146_400)
    case Nu6_2 => Some(3_364_600)
    case Nu6_3 => Some(3_428_143)
  }

  function TestNetwork(nu: NetworkUpgrade): Option<u32> {
    match nu
    case Overwinter => Some(207_500)
    case Sapling => Some(280_000)
    case Blossom => Some(584_000)
    case Heartwood => Some(903_800)
    case Canopy => Some(1_028_500)
    case Nu5 => Some(1_842_420)
    case Nu6 => Some(2_976_000)
    case Nu6_1 => Some(3_536_500)
    case Nu6_2 => Some(4_052_000)
    case Nu6_3 => Some(4_134_000)
  }

  /** Which rules hold at each height of the main network. */
  function MainNetworkRules(height: u32): BranchId {
    if height < 347_500 then SproutBranch
    else if height < 419_200 then OverwinterBranch
    else if height < 653_600 then SaplingBranch
    else if height < 903_000 then BlossomBranch
    else if height < 1_046_400 then HeartwoodBranch
    else if height < 1_687_104 then CanopyBranch
    else if height < 2_726_400 then Nu5Branch
    else if height < 3_146_400 then Nu6Branch
    else if height < 3_364_600 then Nu6_1Branch
    else if height < 3_428_143 then Nu6_2Branch
    else Nu6_3Branch
  }

  function TestNetworkRules(height: u32): BranchId {
    if height < 207_500 then SproutBranch
    else if height < 280_000 then OverwinterBranch
    else if height < 584_000 then SaplingBranch
    else if height < 903_800 then BlossomBranch
    else if height < 1_028_500 then HeartwoodBranch
    else if height < 1_842_420 then CanopyBranch
    else if height < 2_976_000 then Nu5Branch
    else if height < 3_536_500 then Nu6Branch
    else if height < 4_052_000 then Nu6_1Branch
    else if height < 4_134_000 then Nu6_2Branch
    else Nu6_3Branch
  }

  lemma PublicNetworkRules(height: u32)
    ensures ForHeight(MainNetwork, height) == MainNetworkRules(height)
    ensures ForHeight(TestNetwork, height) == TestNetworkRules(height)
  {
    PublicNetworksAgree();
    hide ForHeight, LastActive;
    assert InEpoch(MainNetwork, MainNetworkRules(height), height);
    assert InEpoch(TestNetwork, TestNetworkRules(height), height);
  }

  lemma PublicNetworksAgree()
    ensures DescriptionsAgree(MainNetwork) && DescriptionsAgree(TestNetwork)
  {
    MainNetworkIsOrdered();
    TestNetworkIsOrdered();
    OrderedSchedulesAgree(MainNetwork);
    OrderedSchedulesAgree(TestNetwork);
    hide Ordered, DescriptionsAgree;
  }

  lemma MainNetworkIsOrdered()
    ensures Ordered(MainNetwork)
  {
  }

  lemma TestNetworkIsOrdered()
    ensures Ordered(TestNetwork)
  {
  }
}
