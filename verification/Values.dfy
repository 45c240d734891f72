/** Monetary amounts and their checked sums. */
module Values {
  import opened ByteStrings
  import opened Io

  const COIN: int := 1_0000_0000
  const MAX_MONEY: int := 21_000_000 * COIN

  /** A non-negative amount. */
  type Zatoshis = n: int | 0 <= n <= MAX_MONEY

  /** A signed amount. */
  type ZatBalance = n: int | -MAX_MONEY <= n <= MAX_MONEY

  datatype BalanceError = Overflow | Underflow

  datatype Checked<+T> = Amount(value: T) | OutOfRange(error: BalanceError) {
    predicate IsFailure() {
      OutOfRange?
    }

    function PropagateFailure<U>(): Checked<U>
      requires OutOfRange?
    {
      OutOfRange(error)
    }

    function Extract(): T
      requires Amount?
    {
      value
    }
  }

  function BalanceFromI64(amount: i64): Checked<ZatBalance> {
    if -MAX_MONEY <= amount <= MAX_MONEY then Amount(amount)
    else if amount < -MAX_MONEY then OutOfRange(Underflow)
    else OutOfRange(Overflow)
  }

  function ZatoshisFromU64(amount: u64): Checked<Zatoshis> {
    if amount <= MAX_MONEY then Amount(amount) else OutOfRange(Overflow)
  }

  function ZatoshisFromBalance(b: ZatBalance): Checked<Zatoshis> {
    if b < 0 then OutOfRange(Underflow) else ZatoshisFromU64(b)
  }

  /** `a + b` of two balances; the i64 addition inside cannot overflow. */
  function Add(a: ZatBalance, b: ZatBalance): (r: Option<ZatBalance>)
    ensures r == if -MAX_MONEY <= a + b <= MAX_MONEY then Some(a + b) else None
  {
    var sum: i64 := a + b;
    match BalanceFromI64(sum)
    case Amount(v) => Some(v)
    case OutOfRange(_) => None
  }

  function Sub(a: ZatBalance, b: ZatBalance): (r: Option<ZatBalance>)
    ensures r == if -MAX_MONEY <= a - b <= MAX_MONEY then Some(a - b) else None
  {
    var difference: i64 := a - b;
    match BalanceFromI64(difference)
    case Amount(v) => Some(v)
    case OutOfRange(_) => None
  }

  /** `a + b` of two amounts; the u64 addition inside cannot overflow. */
  function AddZatoshis(a: Zatoshis, b: Zatoshis): (r: Option<Zatoshis>)
    ensures r == if a + b <= MAX_MONEY then Some(a + b) else None
    ensures r.Some? <==> a + b <= 2_100_000_000_000_000
  {
    var sum: u64 := a + b;
    match ZatoshisFromU64(sum)
    case Amount(v) => Some(v)
    case OutOfRange(_) => None
  }

  //////////////////////////////////////////////////////////////////////////////
  // Sums
  //////////////////////////////////////////////////////////////////////////////

  /** The true, unbounded total of `f` over a list. */
  ghost function Total<T>(xs: seq<T>, f: T -> int): int {
    if xs == [] then 0 else Total(xs[..|xs| - 1], f) + f(xs[|xs| - 1])
  }

  function Itself(n: int): int {
    n
  }

  ghost function Sum(xs: seq<int>): int {
    Total(xs, Itself)
  }

  lemma {:induction false} TotalOfConcat<T>(xs: seq<T>, ys: seq<T>, f: T -> int)
    ensures Total(xs + ys, f) == Total(xs, f) + Total(ys, f)
  {
    if ys == [] {
      assert xs + ys == xs;
    } else {
      var n := |ys| - 1;
      assert (xs + ys)[..|xs| + n] == xs + ys[..n];
      TotalOfConcat(xs, ys[..n], f);
    }
  }

  lemma TotalAround<T>(a: seq<T>, x: T, b: seq<T>, f: T -> int)
    ensures Total(a + [x] + b, f) == Total(a + b, f) + f(x)
  {
    TotalOfConcat(a + [x], b, f);
    TotalOfConcat(a, b, f);
    assert (a + [x])[..|a|] == a;
  }

  lemma FindAndDrop<T>(init: seq<T>, x: T, ys: seq<T>) returns (a: seq<T>, b: seq<T>)
    requires multiset(init + [x]) == multiset(ys)
    ensures ys == a + [x] + b && multiset(init) == multiset(a + b)
  {
    assert multiset(init + [x]) == multiset(init) + multiset{x};
    assert x in multiset(ys);
    var k :| 0 <= k < |ys| && ys[k] == x;
    a, b := ys[..k], ys[k + 1..];
    assert ys == a + [x] + b;
    assert multiset(ys) == multiset(a) + multiset{x} + multiset(b);
    assert multiset(init) == multiset(ys) - multiset{x};
    assert multiset(a) + multiset(b) == multiset(ys) - multiset{x};
  }

  /** The order of the items does not matter to the total. */
  lemma {:induction false} TotalOfPermutation<T>(xs: seq<T>, ys: seq<T>, f: T -> int)
    requires multiset(xs) == multiset(ys)
    ensures Total(xs, f) == Total(ys, f)
    decreases |xs|
  {
    if xs == [] {
      assert |ys| == |multiset(ys)| == |multiset(xs)|;
    } else {
      var init, x := xs[..|xs| - 1], xs[|xs| - 1];
      assert xs == init + [x];
      var a, b := FindAndDrop(init, x, ys);
      TotalOfPermutation(init, a + b, f);
      TotalAround(a, x, b, f);
    }
  }

  /** The total of non-negative sizes only grows. */
  lemma {:induction false} PrefixesNeverExceed<T>(xs: seq<T>, k: nat, f: T -> int)
    requires k <= |xs| && forall x :: x in xs ==> f(x) >= 0
    ensures 0 <= Total(xs[..k], f) <= Total(xs, f)
    decreases |xs|
  {
    if k == |xs| && k > 0 {
      assert xs[..k] == xs;
      PrefixesNeverExceed(xs[..k - 1], k - 1, f);
      assert xs[..k - 1][..k - 1] == xs[..k - 1];
    } else if k < |xs| {
      PrefixesNeverExceed(xs[..|xs| - 1], k, f);
      assert xs[..|xs| - 1][..k] == xs[..k];
    }
  }

  /** Every prefix of the list stays within the balance range. */
  ghost predicate PrefixesInRange(xs: seq<int>) {
    forall k :: 0 <= k <= |xs| ==> -MAX_MONEY <= Sum(xs[..k]) <= MAX_MONEY
  }

  /** `ZatBalance::sum`, also the fold behind summing into an `Option`. */
  method SumBalances(values: seq<ZatBalance>) returns (result: Option<ZatBalance>)
    ensures result.Some? <==> PrefixesInRange(values)
    ensures result.Some? ==> result.value == Sum(values)
  {
    var sum: ZatBalance := 0;
    for i := 0 to |values|
      invariant forall k :: 0 <= k <= i ==> -MAX_MONEY <= Sum(values[..k]) <= MAX_MONEY
      invariant sum == Sum(values[..i])
    {
      assert values[..i + 1][..i] == values[..i];
      match Add(sum, values[i]) {
        case Some(s) =>
          sum := s;
        case None =>
          return None;
      }
    }
    assert values[..|values|] == values;
    result := Some(sum);
  }

  /** The sum of non-negative amounts; only the final total matters. */
  method SumZatoshis(values: seq<Zatoshis>) returns (result: Option<Zatoshis>)
    ensures result == if Sum(values) <= MAX_MONEY then Some(Sum(values)) else None
  {
    var sum: Zatoshis := 0;
    for i := 0 to |values|
      invariant sum == Sum(values[..i])
    {
      assert values[..i + 1][..i] == values[..i];
      PrefixesNeverExceed<int>(values, i + 1, Itself);
      match AddZatoshis(sum, values[i]) {
        case Some(s) =>
          sum := s;
        case None =>
          return None;
      }
    }
    assert values[..|values|] == values;
    PrefixesNeverExceed<int>(values, |values|, Itself);
    result := Some(sum);
  }

  //////////////////////////////////////////////////////////////////////////////
  // When the order of a signed sum matters
  //////////////////////////////////////////////////////////////////////////////

  function Gain(n: int): int {
    if n > 0 then n else 0
  }

  function Loss(n: int): int {
    if n < 0 then -n else 0
  }

  /** Every order of the values can be added up. */
  ghost predicate EveryOrderInRange(xs: seq<int>) {
    forall ys: seq<int> :: multiset(ys) == multiset(xs) ==> PrefixesInRange(ys)
  }

  lemma {:induction false} SumIsGainsLessLosses(xs: seq<int>)
    ensures Sum(xs) == Total(xs, Gain) - Total(xs, Loss)
  {
    if xs != [] {
      SumIsGainsLessLosses(xs[..|xs| - 1]);
    }
  }

  lemma CountOneMore(a: seq<int>, b: seq<int>, x: int)
    ensures multiset((a + [x]) + b) == multiset(a + b) + multiset{x}
    ensures multiset(a + (b + [x])) == multiset(a + b) + multiset{x}
  {
    assert a + (b + [x]) == (a + b) + [x];
  }

  /** The gains and the rest, each in one piece. */
  lemma {:induction false} Separate(xs: seq<int>) returns (gains: seq<int>, others: seq<int>)
    ensures multiset(gains + others) == multiset(xs)
    ensures Sum(gains) == Total(xs, Gain) && Sum(others) == -Total(xs, Loss)
  {
    gains, others := [], [];
    if xs != [] {
      var init, x := xs[..|xs| - 1], xs[|xs| - 1];
      gains, others := Separate(init);
      assert xs == init + [x];
      CountOneMore(gains, others, x);
      if x > 0 {
        SumSnoc(gains, x);
        gains := gains + [x];
      } else {
        SumSnoc(others, x);
        others := others + [x];
      }
    }
  }

  /** The order of a signed sum does not matter exactly when gains alone and losses alone stay in range. */
  lemma OrderMattersExactly(xs: seq<int>)
    ensures EveryOrderInRange(xs) <==> Total(xs, Gain) <= MAX_MONEY && Total(xs, Loss) <= MAX_MONEY
  {
    if Total(xs, Gain) <= MAX_MONEY && Total(xs, Loss) <= MAX_MONEY {
      forall ys: seq<int> | multiset(ys) == multiset(xs) ensures PrefixesInRange(ys) {
        TotalOfPermutation(xs, ys, Gain);
        TotalOfPermutation(xs, ys, Loss);
        forall k | 0 <= k <= |ys| ensures -MAX_MONEY <= Sum(ys[..k]) <= MAX_MONEY {
          SumIsGainsLessLosses(ys[..k]);
          PrefixesNeverExceed(ys, k, Gain);
          PrefixesNeverExceed(ys, k, Loss);
        }
      }
    }
    if EveryOrderInRange(xs) {
      var gains, others := Separate(xs);
      assert PrefixesInRange(gains + others);
      assert (gains + others)[..|gains|] == gains;
      assert multiset(others + gains) == multiset(gains + others);
      assert PrefixesInRange(others + gains);
      assert (others + gains)[..|others|] == others;
    }
  }

  /** A signed sum can fail on an order of the same values that another order of them survives. */
  lemma SignedSumDependsOnOrder()
    ensures PrefixesInRange([MAX_MONEY, -1, 1]) && !PrefixesInRange([MAX_MONEY, 1, -1])
  {
    assert Sum([]) == 0;
    hide Sum, Total;
    var good, bad := [MAX_MONEY, -1, 1], [MAX_MONEY, 1, -1];
    assert good[..0] == [] && good[..1] == [MAX_MONEY] && good[..2] == [MAX_MONEY, -1] && good[..3] == good;
    assert bad[..1] == [MAX_MONEY] && bad[..2] == [MAX_MONEY, 1];
    assert [] + [MAX_MONEY] == [MAX_MONEY] && [MAX_MONEY] + [-1] == [MAX_MONEY, -1] && [MAX_MONEY, -1] + [1] == good;
    SumSnoc([], MAX_MONEY);
    SumSnoc([MAX_MONEY], -1);
    SumSnoc([MAX_MONEY, -1], 1);
    assert [MAX_MONEY] + [1] == [MAX_MONEY, 1];
    SumSnoc([MAX_MONEY], 1);
    assert Sum(bad[..2]) == MAX_MONEY + 1;
  }

  lemma SumSnoc(xs: seq<int>, x: int)
    ensures Sum(xs + [x]) == Sum(xs) + x
  {
    assert (xs + [x])[..|xs|] == xs;
  }

  //////////////////////////////////////////////////////////////////////////////
  // Wire form of signed amounts
  //////////////////////////////////////////////////////////////////////////////

  /** Two's complement in eight little-endian bytes. */
  function EncBalance(b: ZatBalance): (e: Bytes)
    ensures |e| == 8
  {
    LE(if b < 0 then b + 0x1_0000_0000_0000_0000 else b, 8)
  }

  function SignedWord(word: u64): i64 {
    var w: int := word;
    if w >= 0x8000_0000_0000_0000 then w - 0x1_0000_0000_0000_0000 else w
  }

  function ParseBalance(s: Bytes): (p: Parsed<ZatBalance>)
    ensures p.Done? ==> s == EncBalance(p.value) + p.rest
  {
    var (word, t) :- ParseU64(s);
    var amount := SignedWord(word);
    match BalanceFromI64(amount)
    case Amount(v) => Done(v, t)
    case OutOfRange(_) => Bad(InvalidData)
  }

  lemma BalanceRoundTrip(b: ZatBalance, t: Bytes)
    ensures ParseBalance(EncBalance(b) + t) == Done(b, t)
  {
    U64RoundTrip(if b < 0 then b + 0x1_0000_0000_0000_0000 else b, t);
  }

  method ReadBalance(r: Reader) returns (res: Result<ZatBalance>)
    modifies r
    ensures Follows(ParseBalance(old(r.rest)), res, r.rest)
  {
    var word :- r.ReadU64();
    var amount := SignedWord(word);
    match BalanceFromI64(amount) {
      case Amount(v) =>
        res := Success(v);
      case OutOfRange(_) =>
        res := Failure(InvalidData);
    }
  }

  /** An unsigned amount in eight little-endian bytes. */
  function ParseZatoshis(s: Bytes): (p: Parsed<Zatoshis>)
    ensures p.Done? ==> s == LE(p.value, 8) + p.rest
  {
    var (word, t) :- ParseU64(s);
    if word > MAX_MONEY then Bad(InvalidData) else Done(word as int, t)
  }

  lemma ZatoshisRoundTrip(z: Zatoshis, t: Bytes)
    ensures ParseZatoshis(LE(z, 8) + t) == Done(z, t)
  {
    U64RoundTrip(z, t);
  }

  method ReadZatoshis(r: Reader) returns (res: Result<Zatoshis>)
    modifies r
    ensures Follows(ParseZatoshis(old(r.rest)), res, r.rest)
  {
    var word :- r.ReadU64();
    if word > MAX_MONEY {
      return Failure(InvalidData);
    }
    res := Success(word as int);
  }
}
