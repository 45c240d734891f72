/** User-led hardfork rules: canonical construction, the duplicate scan, and the wire form. */
module HardForks {
  import opened ByteStrings
  import opened Io
  import opened Votes

  const MAX_TERMINATED_FINALIZERS: nat := 4096
  const STAKING_PERIOD: nat := 150

  datatype HardFork = HardFork(powActivationHeight: u32, bftCertificateHeight: u32, finalizers: seq<Bytes32>)

  datatype Built = Valid(rule: HardFork) | NoTerminatedFinalizers | DuplicateFinalizer(finalizer: Bytes32)

  //////////////////////////////////////////////////////////////////////////////
  // Key order
  //////////////////////////////////////////////////////////////////////////////

  /** The number a key spells, most significant byte first. */
  function Rank(k: Bytes): nat {
    if k == [] then 0 else 256 * Rank(k[..|k| - 1]) + k[|k| - 1]
  }

  /** `a` is smaller than `b` at the first byte where they differ. */
  ghost predicate DiffersFirstAt(a: Bytes, b: Bytes, i: nat)
    requires |a| == |b|
  {
    i < |a| && a[..i] == b[..i] && a[i] < b[i]
  }

  /** Comparing ranks compares keys byte by byte, and equal ranks are equal keys. */
  lemma {:induction false} RankIsLexicographic(a: Bytes, b: Bytes)
    requires |a| == |b|
    ensures Rank(a) < Rank(b) <==> exists i: nat :: DiffersFirstAt(a, b, i)
    ensures Rank(a) == Rank(b) ==> a == b
  {
    if a != [] {
      var n := |a| - 1;
      var a', b' := a[..n], b[..n];
      RankIsLexicographic(a', b');
      assert a == a' + [a[n]] && b == b' + [b[n]];
      forall i: nat | i < n ensures DiffersFirstAt(a, b, i) <==> DiffersFirstAt(a', b', i) {
        assert a[..i] == a'[..i] && b[..i] == b'[..i];
      }
      assert DiffersFirstAt(a, b, n) <==> a' == b' && a[n] < b[n];
      if exists i: nat :: DiffersFirstAt(a', b', i) {
        var i: nat :| DiffersFirstAt(a', b', i);
        assert DiffersFirstAt(a, b, i);
      }
    }
  }

  ghost predicate Ascending(keys: seq<Bytes32>) {
    forall i, j :: 0 <= i < j < |keys| ==> Rank(keys[i]) <= Rank(keys[j])
  }

  ghost predicate StrictlyAscending(keys: seq<Bytes32>) {
    forall i, j :: 0 <= i < j < |keys| ==> Rank(keys[i]) < Rank(keys[j])
  }

  ghost predicate NoDuplicates(keys: seq<Bytes32>) {
    forall i, j :: 0 <= i < j < |keys| ==> keys[i] != keys[j]
  }

  /** Having no duplicates is a property of the keys, not of their order. */
  lemma NoDuplicatesIsUnordered(xs: seq<Bytes32>, ys: seq<Bytes32>)
    requires multiset(xs) == multiset(ys)
    ensures NoDuplicates(xs) <==> NoDuplicates(ys)
  {
    CountsDecide(xs);
    CountsDecide(ys);
  }

  lemma {:induction false} CountsDecide(xs: seq<Bytes32>)
    ensures NoDuplicates(xs) <==> forall k :: multiset(xs)[k] <= 1
  {
    if xs != [] {
      var n := |xs| - 1;
      var init, last := xs[..n], xs[n];
      CountsDecide(init);
      assert xs == init + [last];
      assert multiset(xs) == multiset(init) + multiset{last};
      assert forall k :: multiset(xs)[k] == multiset(init)[k] + if k == last then 1 else 0;
      assert NoDuplicates(xs) <==> NoDuplicates(init) && last !in init by {
        assert forall i :: 0 <= i < n ==> init[i] == xs[i];
      }
      assert last in init <==> multiset(init)[last] > 0;
    }
  }

  //////////////////////////////////////////////////////////////////////////////
  // Construction
  //////////////////////////////////////////////////////////////////////////////

  /** A stand-in for the library's unstable sort. */
  method SortUnstable<T>(v: array<T>, rank: T -> nat)
    modifies v
    ensures forall p, q :: 0 <= p < q < v.Length ==> rank(v[p]) <= rank(v[q])
    ensures multiset(v[..]) == multiset(old(v[..]))
  {
    for i := 0 to v.Length
      invariant forall p, q :: 0 <= p < q < i ==> rank(v[p]) <= rank(v[q])
      invariant multiset(v[..]) == multiset(old(v[..]))
    {
      Settle(v, i, rank);
    }
  }

  /** Moves element `i` down to its place in the sorted elements before it. */
  method Settle<T>(v: array<T>, i: nat, rank: T -> nat)
    requires i < v.Length
    requires forall p, q :: 0 <= p < q < i ==> rank(v[p]) <= rank(v[q])
    modifies v
    ensures forall p, q :: 0 <= p < q <= i ==> rank(v[p]) <= rank(v[q])
    ensures multiset(v[..]) == multiset(old(v[..]))
  {
    var j := i;
    while j > 0 && rank(v[j]) < rank(v[j - 1])
      invariant 0 <= j <= i
      invariant forall p, q :: 0 <= p < q <= i && q != j ==> rank(v[p]) <= rank(v[q])
      invariant multiset(v[..]) == multiset(old(v[..]))
    {
      Swap(v, j);
      j := j - 1;
    }
  }

  method Swap<T>(v: array<T>, j: nat)
    requires 0 < j < v.Length
    modifies v
    ensures v[j] == old(v[j - 1]) && v[j - 1] == old(v[j])
    ensures forall k :: 0 <= k < v.Length && k != j && k != j - 1 ==> v[k] == old(v[k])
    ensures multiset(v[..]) == multiset(old(v[..]))
  {
    v[j - 1], v[j] := v[j], v[j - 1];
  }

  /** `f` is the least key that `keys` lists more than once. */
  ghost predicate LeastDuplicate(keys: seq<Bytes32>, f: Bytes32) {
    && multiset(keys)[f] > 1
    && forall g :: g in keys && multiset(keys)[g] > 1 ==> Rank(f) <= Rank(g)
  }

  lemma FirstEqualPairIsLeast(keys: seq<Bytes32>, i: nat)
    requires Ascending(keys) && i + 1 < |keys| && keys[i] == keys[i + 1]
    requires forall j :: 0 <= j < i ==> keys[j] != keys[j + 1]
    ensures LeastDuplicate(keys, keys[i]) && !NoDuplicates(keys)
  {
    CountAt(keys, i, i + 1);
    forall g | g in keys && multiset(keys)[g] > 1 ensures Rank(keys[i]) <= Rank(g) {
      if Rank(g) < Rank(keys[i]) {
        var p, q := TwoPlaces(keys, g);
        assert Rank(keys[p]) <= Rank(keys[p + 1]) <= Rank(keys[q]);
        RankIsLexicographic(keys[p], keys[p + 1]);
        assert false;
      }
    }
  }

  lemma CountAt(keys: seq<Bytes32>, p: nat, q: nat)
    requires p < q < |keys| && keys[p] == keys[q]
    ensures multiset(keys)[keys[p]] > 1
  {
    var a, b := keys[..q], keys[q..];
    assert keys == a + b && a[p] == keys[p] && b[0] == keys[p];
    assert multiset(keys) == multiset(a) + multiset(b);
    assert keys[p] in multiset(a) && keys[p] in multiset(b);
  }

  lemma TwoPlaces(keys: seq<Bytes32>, g: Bytes32) returns (p: nat, q: nat)
    requires multiset(keys)[g] > 1
    ensures p < q < |keys| && keys[p] == g == keys[q]
  {
    var n := |keys| - 1;
    assert keys == keys[..n] + [keys[n]];
    assert multiset(keys) == multiset(keys[..n]) + multiset{keys[n]};
    if keys[n] == g {
      p, q :| 0 <= p < n && keys[..n][p] == g && q == n;
    } else {
      p, q := TwoPlaces(keys[..n], g);
    }
  }

  ghost predicate SameKeys(xs: seq<Bytes32>, ys: seq<Bytes32>) {
    forall k :: k in xs <==> k in ys
  }

  /** The canonical order of a set of keys is unique, so equal sets of finalizers build equal rules. */
  lemma {:induction false} CanonicalOrderIsUnique(xs: seq<Bytes32>, ys: seq<Bytes32>)
    requires StrictlyAscending(xs) && StrictlyAscending(ys)
    requires SameKeys(xs, ys)
    ensures xs == ys
  {
    if xs != [] {
      assert xs[0] in ys;
    }
    if ys != [] {
      assert ys[0] in xs;
      var m, n := |xs| - 1, |ys| - 1;
      SameGreatest(xs, ys);
      CanonicalOrderIsUnique(xs[..m], ys[..n]);
      assert xs == xs[..m] + [xs[m]] && ys == ys[..n] + [ys[n]];
    }
  }

  lemma SameGreatest(xs: seq<Bytes32>, ys: seq<Bytes32>)
    requires StrictlyAscending(xs) && StrictlyAscending(ys) && xs != [] && ys != []
    requires SameKeys(xs, ys)
    ensures xs[|xs| - 1] == ys[|ys| - 1]
    ensures SameKeys(xs[..|xs| - 1], ys[..|ys| - 1])
  {
    var x, y := xs[|xs| - 1], ys[|ys| - 1];
    assert x in ys && y in xs;
    LastIsGreatest(xs, y);
    LastIsGreatest(ys, x);
    RankIsLexicographic(x, y);
    var xs', ys' := xs[..|xs| - 1], ys[..|ys| - 1];
    forall k ensures k in xs' <==> k in ys' {
      LastIsGreatest(xs, k);
      LastIsGreatest(ys, k);
    }
  }

  lemma LastIsGreatest(xs: seq<Bytes32>, k: Bytes32)
    requires StrictlyAscending(xs) && xs != []
    ensures k in xs ==> Rank(k) <= Rank(xs[|xs| - 1])
    ensures k in xs[..|xs| - 1] <==> k in xs && k != xs[|xs| - 1]
  {
  }

  method SortKeys(finalizers: seq<Bytes32>) returns (keys: seq<Bytes32>)
    ensures Ascending(keys) && multiset(keys) == multiset(finalizers)
  {
    var v := new Bytes32[|finalizers|](i requires 0 <= i < |finalizers| => finalizers[i]);
    assert v[..] == finalizers;
    SortUnstable(v, (k: Bytes32) => Rank(k));
    keys := v[..];
    assert forall p, q :: 0 <= p < q < |keys| ==> Rank(v[p]) <= Rank(v[q]);
  }

  method New(powActivationHeight: u32, bftCertificateHeight: u32, finalizers: seq<Bytes32>) returns (built: Built)
    ensures built.Valid? <==> finalizers != [] && NoDuplicates(finalizers)
    ensures built.Valid? ==>
      && built.rule == HardFork(powActivationHeight, bftCertificateHeight, built.rule.finalizers)
      && StrictlyAscending(built.rule.finalizers)
      && multiset(built.rule.finalizers) == multiset(finalizers)
    ensures built.NoTerminatedFinalizers? <==> finalizers == []
    ensures built.DuplicateFinalizer? ==> LeastDuplicate(finalizers, built.finalizer)
  {
    if finalizers == [] {
      return NoTerminatedFinalizers;
    }
    var keys := SortKeys(finalizers);
    NoDuplicatesIsUnordered(keys, finalizers);
    for i := 0 to |keys| - 1
      invariant forall j :: 0 <= j < i ==> keys[j] != keys[j + 1]
    {
      if keys[i] == keys[i + 1] {
        FirstEqualPairIsLeast(keys, i);
        return DuplicateFinalizer(keys[i]);
      }
    }
    NoEqualPairs(keys);
    built := Valid(HardFork(powActivationHeight, bftCertificateHeight, keys));
  }

  lemma NoEqualPairs(keys: seq<Bytes32>)
    requires Ascending(keys)
    requires forall j :: 0 <= j < |keys| - 1 ==> keys[j] != keys[j + 1]
    ensures StrictlyAscending(keys) && NoDuplicates(keys)
  {
    forall i, j | 0 <= i < j < |keys| ensures Rank(keys[i]) < Rank(keys[j]) {
      RankIsLexicographic(keys[i], keys[i + 1]);
    }
  }

  //////////////////////////////////////////////////////////////////////////////
  // Deserialisation with validation
  //////////////////////////////////////////////////////////////////////////////

  datatype Deserialized =
    | Accepted(rule: HardFork)
    | BadActivationHeight
    | NoFinalizers
    | Repeated(finalizer: Bytes32)
    | HeightOutOfRange

  /** Keeps the listed order, and refuses at the first key that an earlier position already lists. */
  method Deserialize(pow: u64, bft: u64, finalizers: seq<Bytes32>) returns (d: Deserialized)
    ensures d.BadActivationHeight? <==> pow == 0 || pow % STAKING_PERIOD != 0
    ensures !d.BadActivationHeight? ==> (d.NoFinalizers? <==> finalizers == [])
    ensures !d.BadActivationHeight? ==> (d.Repeated? <==> !NoDuplicates(finalizers))
    ensures d.Repeated? ==> exists i, j ::
      0 <= j < i < |finalizers| && finalizers[i] == finalizers[j] == d.finalizer && NoDuplicates(finalizers[..i])
    ensures d.Accepted? ==>
      pow <= 0xffff_ffff && bft <= 0xffff_ffff && d.rule == HardFork(pow as int, bft as int, finalizers)
    ensures d.HeightOutOfRange? ==> pow > 0xffff_ffff || bft > 0xffff_ffff
  {
    if pow == 0 || pow % STAKING_PERIOD != 0 {
      return BadActivationHeight;
    }
    if finalizers == [] {
      return NoFinalizers;
    }
    var seen: seq<Bytes32> := [];
    for i := 0 to |finalizers|
      invariant seen == finalizers[..i] && NoDuplicates(seen)
    {
      if finalizers[i] in seen {
        var j :| 0 <= j < i && seen[j] == finalizers[i];
        return Repeated(finalizers[i]);
      }
      seen := seen + [finalizers[i]];
    }
    if pow > 0xffff_ffff || bft > 0xffff_ffff {
      return HeightOutOfRange;
    }
    d := Accepted(HardFork(pow as int, bft as int, finalizers));
  }

  /** The two duplicate checks, one on the sorted list and one on the listed order, always agree. */
  method CheckBoth(pow: u32, bft: u32, finalizers: seq<Bytes32>) returns (built: Built, d: Deserialized)
    requires pow > 0 && pow % STAKING_PERIOD == 0
    ensures built.Valid? <==> d.Accepted?
    ensures built.NoTerminatedFinalizers? <==> d.NoFinalizers?
    ensures built.DuplicateFinalizer? <==> d.Repeated?
    ensures built.Valid? ==> (built.rule == d.rule <==> StrictlyAscending(finalizers))
  {
    built := New(pow, bft, finalizers);
    d := Deserialize(pow, bft, finalizers);
    if built.Valid? && StrictlyAscending(finalizers) {
      forall k ensures k in built.rule.finalizers <==> k in finalizers {
        assert k in multiset(built.rule.finalizers) <==> k in multiset(finalizers);
      }
      CanonicalOrderIsUnique(built.rule.finalizers, finalizers);
    }
  }

  //////////////////////////////////////////////////////////////////////////////
  // Wire form
  //////////////////////////////////////////////////////////////////////////////

  function EncKey(k: Bytes32): Bytes {
    k
  }

  function ParseKey(s: Bytes): Parsed<Bytes32> {
    var (k, s) :- Take(32, s);
    Done(k, s)
  }

  predicate Readable(hf: HardFork) {
    |hf.finalizers| <= MAX_TERMINATED_FINALIZERS
  }

  function EncHardFork(hf: HardFork): Bytes {
    LE(hf.powActivationHeight, 8)
    + LE(hf.bftCertificateHeight, 8)
    + LE(|hf.finalizers|, 4)
    + Concat(hf.finalizers, EncKey)
  }

  /** Accepts an empty or unsorted list of keys; only `New` enforces the canonical form. */
  function ParseHardFork(s: Bytes): Parsed<HardFork> {
    var (pow, s) :- ParseHeight(s);
    var (bft, s) :- ParseHeight(s);
    var (count, s) :- ParseU32(s);
    if count > MAX_TERMINATED_FINALIZERS then Bad(InvalidData) else
      var (finalizers, s) :- Many([], count, s, ParseKey);
      Done(HardFork(pow, bft, finalizers), s)
  }

  lemma HardForkRoundTrip(hf: HardFork, t: Bytes)
    requires Readable(hf)
    ensures ParseHardFork(EncHardFork(hf) + t) == Done(hf, t)
  {
    var keys := Concat(hf.finalizers, EncKey) + t;
    var count := LE(|hf.finalizers|, 4) + keys;
    Regroup4(LE(hf.powActivationHeight, 8), LE(hf.bftCertificateHeight, 8), LE(|hf.finalizers|, 4),
             Concat(hf.finalizers, EncKey), t);
    HeightRoundTrip(hf.powActivationHeight, LE(hf.bftCertificateHeight, 8) + count);
    HeightRoundTrip(hf.bftCertificateHeight, count);
    U32RoundTrip(|hf.finalizers|, keys);
    assert forall x :: RoundTrips(x, EncKey, ParseKey);
    ManyRoundTrip(hf.finalizers, t, EncKey, ParseKey);
  }

  lemma HardForkReencodes(s: Bytes)
    requires ParseHardFork(s).Done?
    ensures Readable(ParseHardFork(s).value)
    ensures s == EncHardFork(ParseHardFork(s).value) + ParseHardFork(s).rest
  {
    var hf, t := ParseHardFork(s).value, ParseHardFork(s).rest;
    var s1 := ParseHeight(s).rest;
    var s2 := ParseHeight(s1).rest;
    var s3 := ParseU32(s2).rest;
    assert forall u :: Reencodes(u, EncKey, ParseKey);
    ManyReencodes([], |hf.finalizers|, s3, EncKey, ParseKey);
    Regroup4(LE(hf.powActivationHeight, 8), LE(hf.bftCertificateHeight, 8), LE(|hf.finalizers|, 4),
             Concat(hf.finalizers, EncKey), t);
  }

  method ReadKeys(r: Reader, count: nat) returns (res: Result<seq<Bytes32>>)
    modifies r
    ensures Follows(Many([], count, old(r.rest), ParseKey), res, r.rest)
  {
    var keys: seq<Bytes32> := [];
    for i := 0 to count
      invariant Many([], count, old(r.rest), ParseKey) == Many(keys, count - i, r.rest, ParseKey)
    {
      var k :- r.ReadExact(32);
      keys := keys + [k];
    }
    res := Success(keys);
  }

  method ReadHardFork(r: Reader) returns (res: Result<HardFork>)
    modifies r
    ensures Follows(ParseHardFork(old(r.rest)), res, r.rest)
  {
    var pow :- ReadHeight(r);
    var bft :- ReadHeight(r);
    var count :- r.ReadU32();
    if count > MAX_TERMINATED_FINALIZERS {
      return Failure(InvalidData);
    }
    var finalizers :- ReadKeys(r, count);
    res := Success(HardFork(pow, bft, finalizers));
  }

  method WriteHardFork(w: Writer, hf: HardFork) returns (res: Result<()>)
    modifies w
    ensures res == if |hf.finalizers| <= 0xffff_ffff then Success(()) else Failure(InvalidData)
    ensures res.Success? ==> w.buf == old(w.buf) + EncHardFork(hf)
  {
    w.WriteAll(LE(hf.powActivationHeight, 8));
    w.WriteAll(LE(hf.bftCertificateHeight, 8));
    if |hf.finalizers| > 0xffff_ffff {
      return Failure(InvalidData);
    }
    w.WriteAll(LE(|hf.finalizers|, 4));
    ghost var start := w.buf;
    for i := 0 to |hf.finalizers|
      invariant w.buf == start + Concat(hf.finalizers[..i], EncKey)
    {
      var k := hf.finalizers[i];
      w.WriteAll(k);
      ConcatSnoc(hf.finalizers[..i], k, EncKey);
      assert hf.finalizers[..i] + [k] == hf.finalizers[..i + 1];
      Regroup2(start, Concat(hf.finalizers[..i], EncKey), k);
    }
    assert hf.finalizers[..|hf.finalizers|] == hf.finalizers;
    Regroup4(old(w.buf), LE(hf.powActivationHeight, 8), LE(hf.bftCertificateHeight, 8), LE(|hf.finalizers|, 4),
             Concat(hf.finalizers, EncKey));
    Regroup3(LE(hf.powActivationHeight, 8), LE(hf.bftCertificateHeight, 8), LE(|hf.finalizers|, 4),
             Concat(hf.finalizers, EncKey));
    res := Success(());
  }
}
