/** The ZIP 317 conventional fee. */
module Zip317 {
  import opened ByteStrings
  import opened Io
  import opened Values

  const MARGINAL_FEE: nat := 5_000
  const GRACE_ACTIONS: nat := 2
  const P2PKH_STANDARD_INPUT_SIZE: nat := 150
  const P2PKH_STANDARD_OUTPUT_SIZE: nat := 34

  type Positive = n: nat | n > 0 witness 1

  datatype FeeRule = FeeRule(marginalFee: Zatoshis, graceActions: nat, inputSize: Positive, outputSize: Positive)

  const STANDARD: FeeRule :=
    FeeRule(MARGINAL_FEE, GRACE_ACTIONS, P2PKH_STANDARD_INPUT_SIZE, P2PKH_STANDARD_OUTPUT_SIZE)

  /** The size of a transparent input, or the outpoint whose redeem script is unknown. */
  datatype InputSize<O> = Known(size: nat) | Unknown(outpoint: O)

  datatype Fee<O> = Required(fee: Zatoshis) | BalanceOverflow | UnknownP2shInputs(outpoints: seq<O>)

  /** What a transaction is charged for. */
  datatype Counts = Counts(inputBytes: nat, outputBytes: nat, saplingSpends: nat, saplingOutputs: nat,
                           orchardActions: nat, ironwoodActions: nat)

  function Max(a: nat, b: nat): nat {
    if a < b then b else a
  }

  function CeilDiv(a: nat, b: Positive): nat {
    (a + b - 1) / b
  }

  function LogicalActions(rule: FeeRule, c: Counts): nat {
    Max(CeilDiv(c.inputBytes, rule.inputSize), CeilDiv(c.outputBytes, rule.outputSize))
    + Max(c.saplingSpends, c.saplingOutputs) + c.orchardActions + c.ironwoodActions
  }

  /** The closed form of the fee, before the range check. */
  function RawFee(rule: FeeRule, c: Counts): nat {
    rule.marginalFee * Max(rule.graceActions, LogicalActions(rule, c))
  }

  function KnownSize<O>(i: InputSize<O>): int {
    match i
    case Known(s) => s
    case Unknown(_) => 0
  }

  /** The outpoints of unknown inputs, in order. */
  function UnknownOutpoints<O>(inputs: seq<InputSize<O>>): seq<O> {
    if inputs == [] then [] else
      var init, last := inputs[..|inputs| - 1], inputs[|inputs| - 1];
      UnknownOutpoints(init) + match last
        case Known(_) => []
        case Unknown(o) => [o]
  }

  ghost function CountsOf<O>(inputs: seq<InputSize<O>>, outputs: seq<nat>, spends: nat, saplingOutputs: nat,
                             orchard: nat, ironwood: nat): Counts
  {
    SizesAreNatural(inputs, outputs);
    Counts(Total(inputs, KnownSize<O>), Sum(outputs), spends, saplingOutputs, orchard, ironwood)
  }

  lemma SizesAreNatural<O>(inputs: seq<InputSize<O>>, outputs: seq<nat>)
    ensures Total(inputs, KnownSize<O>) >= 0 && Sum(outputs) >= 0
  {
    PrefixesNeverExceed(inputs, 0, KnownSize<O>);
    PrefixesNeverExceed<int>(outputs, 0, Itself);
  }

  /** Sums and counts fit in `usize`; the source adds them unchecked. */
  ghost predicate FitsUsize(rule: FeeRule, c: Counts) {
    c.inputBytes < 0x1_0000_0000_0000_0000 && c.outputBytes < 0x1_0000_0000_0000_0000
    && LogicalActions(rule, c) < 0x1_0000_0000_0000_0000
  }

  method FeeRequired<O>(rule: FeeRule, inputs: seq<InputSize<O>>, outputs: seq<nat>, spends: nat, saplingOutputs: nat,
                        orchard: nat, ironwood: nat) returns (r: Fee<O>)
    requires Total(inputs, KnownSize<O>) < 0x1_0000_0000_0000_0000
    requires UnknownOutpoints(inputs) == [] ==>
               FitsUsize(rule, CountsOf(inputs, outputs, spends, saplingOutputs, orchard, ironwood))
    ensures var unknown, fee := UnknownOutpoints(inputs),
                RawFee(rule, CountsOf(inputs, outputs, spends, saplingOutputs, orchard, ironwood));
      r == if unknown != [] then UnknownP2shInputs(unknown)
           else if fee <= MAX_MONEY then Required(fee)
           else BalanceOverflow
  {
    hide CeilDiv;
    SizesAreNatural(inputs, outputs);
    var inBytes, unknown := SumInputs(inputs);
    if unknown != [] {
      return UnknownP2shInputs(unknown);
    }
    var outBytes := SumOutputs(outputs);
    var actions := Max(CeilDiv(inBytes, rule.inputSize), CeilDiv(outBytes, rule.outputSize))
      + Max(spends, saplingOutputs) + orchard + ironwood;
    var fee := rule.marginalFee * Max(rule.graceActions, actions);
    r := if fee <= MAX_MONEY then Required(fee) else BalanceOverflow;
  }

  method SumInputs<O>(inputs: seq<InputSize<O>>) returns (inBytes: u64, unknown: seq<O>)
    requires Total(inputs, KnownSize<O>) < 0x1_0000_0000_0000_0000
    ensures inBytes == Total(inputs, KnownSize<O>) && unknown == UnknownOutpoints(inputs)
  {
    inBytes, unknown := 0, [];
    for i := 0 to |inputs|
      invariant inBytes == Total(inputs[..i], KnownSize<O>)
      invariant unknown == UnknownOutpoints(inputs[..i])
    {
      assert inputs[..i + 1][..i] == inputs[..i];
      PrefixesNeverExceed(inputs, i + 1, KnownSize<O>);
      match inputs[i] {
        case Known(s) =>
          inBytes := inBytes + s;
        case Unknown(o) =>
          unknown := unknown + [o];
      }
    }
    assert inputs[..|inputs|] == inputs;
  }

  method SumOutputs(outputs: seq<nat>) returns (outBytes: u64)
    requires Sum(outputs) < 0x1_0000_0000_0000_0000
    ensures outBytes == Sum(outputs)
  {
    outBytes := 0;
    for i := 0 to |outputs|
      invariant outBytes == Sum(outputs[..i])
    {
      assert outputs[..i + 1][..i] == outputs[..i];
      PrefixesNeverExceed<int>(outputs, i + 1, Itself);
      outBytes := outBytes + outputs[i];
    }
    assert outputs[..|outputs|] == outputs;
  }

  //////////////////////////////////////////////////////////////////////////////
  // Laws of the fee
  //////////////////////////////////////////////////////////////////////////////

  /** `CeilDiv(a, b)` is the least number of units of `b` that cover `a`. */
  lemma CeilDivIsLeast(a: nat, b: Positive, q: nat)
    ensures CeilDiv(a, b) <= q <==> a <= q * b
  {
    var c := CeilDiv(a, b);
    var r := (a + b - 1) % b;
    assert a + b - 1 == c * b + r && 0 <= r < b;
    if c <= q {
      assert c * b <= q * b;
    } else {
      assert q + 1 <= c;
      assert (q + 1) * b <= c * b;
      assert (q + 1) * b == q * b + b;
    }
  }

  /**
   * `t` transparent and `z` Sapling actions carry everything: each transparent action has room for one
   * standard input and one standard output, each Sapling action for one spend and one output.
   */
  predicate Carries(rule: FeeRule, c: Counts, t: nat, z: nat) {
    && c.inputBytes <= t * rule.inputSize && c.outputBytes <= t * rule.outputSize
    && c.saplingSpends <= z && c.saplingOutputs <= z
  }

  /** `n` actions suffice, the Orchard and Ironwood ones included. */
  ghost predicate Suffices(rule: FeeRule, c: Counts, n: nat) {
    exists t: nat, z: nat :: Carries(rule, c, t, z) && t + z + c.orchardActions + c.ironwoodActions <= n
  }

  /** The logical actions are the least number of actions that suffice. */
  lemma LogicalActionsAreLeast(rule: FeeRule, c: Counts, n: nat)
    ensures LogicalActions(rule, c) <= n <==> Suffices(rule, c, n)
  {
    hide CeilDiv;
    if LogicalActions(rule, c) <= n {
      var t := Max(CeilDiv(c.inputBytes, rule.inputSize), CeilDiv(c.outputBytes, rule.outputSize));
      CeilDivIsLeast(c.inputBytes, rule.inputSize, t);
      CeilDivIsLeast(c.outputBytes, rule.outputSize, t);
      assert Carries(rule, c, t, Max(c.saplingSpends, c.saplingOutputs));
    }
    if t: nat, z: nat :| Carries(rule, c, t, z) && t + z + c.orchardActions + c.ironwoodActions <= n {
      CeilDivIsLeast(c.inputBytes, rule.inputSize, t);
      CeilDivIsLeast(c.outputBytes, rule.outputSize, t);
    }
  }

  /** The fee is the marginal fee for the least number of actions that suffices and is not below the grace actions. */
  lemma FeeIsForLeastActions(rule: FeeRule, c: Counts) returns (n: nat)
    ensures RawFee(rule, c) == rule.marginalFee * n
    ensures n >= rule.graceActions && Suffices(rule, c, n)
    ensures forall m: nat :: m >= rule.graceActions && Suffices(rule, c, m) ==> n <= m
  {
    hide LogicalActions, Suffices;
    n := Max(rule.graceActions, LogicalActions(rule, c));
    LogicalActionsAreLeast(rule, c, n);
    forall m: nat | m >= rule.graceActions && Suffices(rule, c, m) ensures n <= m {
      LogicalActionsAreLeast(rule, c, m);
    }
  }

  predicate AtMost(c: Counts, d: Counts) {
    && c.inputBytes <= d.inputBytes && c.outputBytes <= d.outputBytes
    && c.saplingSpends <= d.saplingSpends && c.saplingOutputs <= d.saplingOutputs
    && c.orchardActions <= d.orchardActions && c.ironwoodActions <= d.ironwoodActions
  }

  lemma CeilDivMonotone(a: nat, a': nat, b: Positive)
    requires a <= a'
    ensures CeilDiv(a, b) <= CeilDiv(a', b)
  {
    CeilDivIsLeast(a', b, CeilDiv(a', b));
    CeilDivIsLeast(a, b, CeilDiv(a', b));
  }

  lemma CeilDivSubadditive(a: nat, a': nat, b: Positive)
    ensures CeilDiv(a + a', b) <= CeilDiv(a, b) + CeilDiv(a', b)
  {
    var q, q' := CeilDiv(a, b), CeilDiv(a', b);
    CeilDivIsLeast(a, b, q);
    CeilDivIsLeast(a', b, q');
    assert (q + q') * b == q * b + q' * b;
    CeilDivIsLeast(a + a', b, q + q');
  }

  lemma FeeMonotone(rule: FeeRule, c: Counts, d: Counts)
    requires AtMost(c, d)
    ensures RawFee(rule, c) <= RawFee(rule, d)
  {
    CeilDivMonotone(c.inputBytes, d.inputBytes, rule.inputSize);
    CeilDivMonotone(c.outputBytes, d.outputBytes, rule.outputSize);
    MulMonotone(rule.marginalFee, Max(rule.graceActions, LogicalActions(rule, c)),
                Max(rule.graceActions, LogicalActions(rule, d)));
  }

  lemma MulMonotone(m: nat, a: nat, b: nat)
    requires a <= b
    ensures m * a <= m * b
  {
  }

  function Merge(c: Counts, d: Counts): Counts {
    Counts(c.inputBytes + d.inputBytes, c.outputBytes + d.outputBytes, c.saplingSpends + d.saplingSpends,
           c.saplingOutputs + d.saplingOutputs, c.orchardActions + d.orchardActions,
           c.ironwoodActions + d.ironwoodActions)
  }

  lemma MergeSubadditive(rule: FeeRule, c: Counts, d: Counts)
    ensures RawFee(rule, Merge(c, d)) <= RawFee(rule, c) + RawFee(rule, d)
  {
    CeilDivSubadditive(c.inputBytes, d.inputBytes, rule.inputSize);
    CeilDivSubadditive(c.outputBytes, d.outputBytes, rule.outputSize);
    hide CeilDiv;
    var g, x, y, z := rule.graceActions, LogicalActions(rule, c), LogicalActions(rule, d),
                      LogicalActions(rule, Merge(c, d));
    assert z <= x + y;
    MulMonotone(rule.marginalFee, Max(g, z), Max(g, x) + Max(g, y));
    MulDistributes(rule.marginalFee, Max(g, x), Max(g, y));
  }

  lemma MulDistributes(m: nat, a: nat, b: nat)
    ensures m * (a + b) == m * a + m * b
  {
  }

  /** Shielded parts: Sapling spends and outputs, Orchard and Ironwood actions. */
  datatype Shielded = Shielded(spends: nat, outputs: nat, orchard: nat, ironwood: nat)

  function JoinShielded(a: Shielded, b: Shielded): Shielded {
    Shielded(a.spends + b.spends, a.outputs + b.outputs, a.orchard + b.orchard, a.ironwood + b.ironwood)
  }

  /** The fee, before the range check, of a transaction's inputs, outputs and shielded parts. */
  ghost function FeeOfParts<O>(rule: FeeRule, inputs: seq<InputSize<O>>, outputs: seq<nat>, s: Shielded): nat {
    RawFee(rule, CountsOf(inputs, outputs, s.spends, s.outputs, s.orchard, s.ironwood))
  }

  /** The counts of joined parts are the merged counts. */
  lemma CountsOfJoined<O>(xs: seq<InputSize<O>>, us: seq<nat>, a: Shielded,
                          ys: seq<InputSize<O>>, vs: seq<nat>, b: Shielded)
    ensures var j := JoinShielded(a, b);
      CountsOf(xs + ys, us + vs, j.spends, j.outputs, j.orchard, j.ironwood)
      == Merge(CountsOf(xs, us, a.spends, a.outputs, a.orchard, a.ironwood),
               CountsOf(ys, vs, b.spends, b.outputs, b.orchard, b.ironwood))
  {
    TotalOfConcat(xs, ys, KnownSize<O>);
    TotalOfConcat<int>(us, vs, Itself);
  }

  /** Putting two transactions' parts into one never costs more than the two fees together. */
  lemma FeeSubadditive<O>(rule: FeeRule, xs: seq<InputSize<O>>, us: seq<nat>, a: Shielded,
                          ys: seq<InputSize<O>>, vs: seq<nat>, b: Shielded)
    ensures FeeOfParts(rule, xs + ys, us + vs, JoinShielded(a, b)) <=
            FeeOfParts(rule, xs, us, a) + FeeOfParts(rule, ys, vs, b)
  {
    CountsOfJoined(xs, us, a, ys, vs, b);
    MergeSubadditive(rule, CountsOf(xs, us, a.spends, a.outputs, a.orchard, a.ironwood),
                     CountsOf(ys, vs, b.spends, b.outputs, b.orchard, b.ironwood));
    hide CountsOf, RawFee;
  }

  const MINIMUM_FEE: nat := 10_000

  /** Under the standard rule nobody pays less than the minimum, and exactly those with at most two actions pay it. */
  lemma StandardMinimum(c: Counts)
    ensures RawFee(STANDARD, c) >= MINIMUM_FEE
    ensures RawFee(STANDARD, c) == MINIMUM_FEE <==> LogicalActions(STANDARD, c) <= 2
  {
    hide LogicalActions;
  }

  lemma CountSnoc<T>(xs: seq<T>, x: T, y: T)
    ensures multiset(xs + [x])[y] == multiset(xs)[y] + if x == y then 1 else 0
  {
  }

  lemma {:induction false} UnknownCounts<O>(inputs: seq<InputSize<O>>, o: O)
    ensures multiset(UnknownOutpoints(inputs))[o] == multiset(inputs)[Unknown(o)]
  {
    if inputs != [] {
      var init, last := inputs[..|inputs| - 1], inputs[|inputs| - 1];
      UnknownCounts(init, o);
      assert inputs == init + [last];
      CountSnoc(init, last, Unknown(o));
      if last.Unknown? {
        CountSnoc(UnknownOutpoints(init), last.outpoint, o);
      } else {
        assert UnknownOutpoints(inputs) == UnknownOutpoints(init);
      }
    }
  }

  /** Neither the fee nor which outpoints are reported depends on the order of inputs and outputs. */
  lemma OrderDoesNotMatter<O>(xs: seq<InputSize<O>>, ys: seq<InputSize<O>>, us: seq<nat>, vs: seq<nat>,
                              spends: nat, saplingOutputs: nat, orchard: nat, ironwood: nat)
    requires multiset(xs) == multiset(ys) && multiset(us) == multiset(vs)
    ensures CountsOf(xs, us, spends, saplingOutputs, orchard, ironwood)
         == CountsOf(ys, vs, spends, saplingOutputs, orchard, ironwood)
    ensures forall o :: multiset(UnknownOutpoints(xs))[o] == multiset(UnknownOutpoints(ys))[o]
  {
    TotalOfPermutation(xs, ys, KnownSize<O>);
    TotalOfPermutation<int>(us, vs, Itself);
    forall o ensures multiset(UnknownOutpoints(xs))[o] == multiset(UnknownOutpoints(ys))[o] {
      UnknownCounts(xs, o);
      UnknownCounts(ys, o);
    }
  }
}
