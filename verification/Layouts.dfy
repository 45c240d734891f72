/** Where each field stands on the wire, byte for byte. */
module Layouts {
  import opened BftBlocks
  import opened ByteStrings
  import opened FatPointers
  import HardForks
  import opened Io
  import Orchard
  import opened Sapling
  import opened Schedules
  import opened Sprout
  import opened Staking
  import opened Transactions
  import opened Transparent
  import opened TxVersions
  import opened Values
  import opened Votes

  /** `x` stands at offset `i` of `b`. */
  predicate At(b: Bytes, i: nat, x: Bytes) {
    i + |x| <= |b| && b[i..i + |x|] == x
  }

  lemma Cut3(a: Bytes, b: Bytes, c: Bytes)
    ensures var w := a + b + c;
      |w| == |a| + |b| + |c| && w[..|a|] == a && w[|a|..|a| + |b|] == b && w[|a| + |b|..] == c
  {
  }

  lemma Cut4(a: Bytes, b: Bytes, c: Bytes, d: Bytes)
    ensures var w := a + b + c + d; var i, j := |a| + |b|, |a| + |b| + |c|;
      |w| == j + |d| && w[..|a|] == a && w[|a|..i] == b && w[i..j] == c && w[j..] == d
  {
  }

  lemma SliceOfSlice(b: Bytes, i: nat, n: nat, j: nat, m: nat)
    requires i <= n <= |b| && j <= m <= n - i
    ensures b[i..n][j..m] == b[i + j..i + m]
  {
    forall k | 0 <= k < m - j ensures b[i..n][j..m][k] == b[i + j..i + m][k] {
    }
  }

  lemma AtInside(b: Bytes, i: nat, x: Bytes, j: nat, y: Bytes)
    requires At(b, i, x) && At(x, j, y)
    ensures At(b, i + j, y)
  {
    SliceOfSlice(b, i, i + |x|, j, j + |y|);
  }

  //////////////////////////////////////////////////////////////////////////////
  // Numbers
  //////////////////////////////////////////////////////////////////////////////

  lemma DivTwice(v: nat, p: nat)
    requires p > 0
    ensures v / 256 / p == v / (256 * p)
  {
    var q, r := v / (256 * p), v % (256 * p);
    assert v == 256 * p * q + r && r < 256 * p;
    var low := r / 256;
    assert v / 256 == p * q + low && low < p by {
      assert 256 * p * q == 256 * (p * q);
    }
    Quotient(v / 256, p, q, low);
  }

  lemma Quotient(n: nat, p: nat, q: nat, r: nat)
    requires n == p * q + r && r < p
    ensures n / p == q
  {
    var m := n / p;
    assert n == p * m + n % p;
    Gap(p, m, q);
    Gap(p, q, m);
  }

  lemma {:induction false} Gap(p: nat, a: nat, b: nat)
    ensures a < b ==> p * a + p <= p * b
  {
    if a < b {
      assert p * b == p * (b - 1) + p;
      if a < b - 1 {
        Gap(p, a, b - 1);
      }
    }
  }

  /** Byte `i` of a number counts the 256^i's: least significant first. */
  lemma {:induction false} LittleEndian(v: nat, n: nat, i: nat)
    requires i < n
    ensures LE(v, n)[i] == v / Pow256(i) % 256
  {
    if i > 0 {
      LittleEndian(v / 256, n - 1, i - 1);
      DivTwice(v, Pow256(i - 1));
    }
  }

  lemma Number(v: nat, n: nat)
    requires n in {1, 2, 4, 8} && v < (if n == 1 then 0x100 else if n == 2 then 0x1_0000
                                       else if n == 4 then 0x1_0000_0000 else 0x1_0000_0000_0000_0000)
    ensures UnLE(LE(v, n)) == v
  {
    Pow256Table();
    hide Pow256;
    UnLEOfLE(v, n);
  }

  lemma OneByte(v: u8)
    ensures LE(v, 1) == [v]
  {
    LittleEndian(v, 1, 0);
  }

  lemma Word(v: u32)
    ensures LE(v, 4) == [v % 0x100, v / 0x100 % 0x100, v / 0x1_0000 % 0x100, v / 0x100_0000]
  {
    assert Pow256(1) == 0x100 && Pow256(2) == 256 * Pow256(1) && Pow256(3) == 256 * Pow256(2);
    LittleEndian(v, 4, 0);
    LittleEndian(v, 4, 1);
    LittleEndian(v, 4, 2);
    LittleEndian(v, 4, 3);
  }

  lemma FirstByte(v: nat, n: nat, a: byte, rest: nat)
    requires v == a + 256 * rest
    ensures LE(v, n + 1) == [a] + LE(rest, n)
  {
    assert v % 256 == a && v / 256 == rest;
  }

  lemma WordOf(v: u32, a: byte, b: byte, c: byte, d: byte)
    requires v == a as int + 0x100 * b as int + 0x1_0000 * c as int + 0x100_0000 * d as int
    ensures LE(v, 4) == [a, b, c, d]
  {
    hide LE;
    FirstByte(v, 3, a, b as int + 0x100 * c as int + 0x1_0000 * d as int);
    FirstByte(b as int + 0x100 * c as int + 0x1_0000 * d as int, 2, b, c as int + 0x100 * d as int);
    FirstByte(c as int + 0x100 * d as int, 1, c, d);
    FirstByte(d, 0, d, 0);
  }

  /** One byte below 253; else a marker byte and two, four or eight bytes. */
  lemma CompactSizeForms(n: u64)
    ensures n < 253 ==> EncCompactSize(n) == [n]
    ensures 253 <= n <= 0xffff ==> EncCompactSize(n) == [253, n % 256, n / 256]
    ensures 0xffff < n <= 0xffff_ffff ==>
      EncCompactSize(n) == [254, n % 0x100, n / 0x100 % 0x100, n / 0x1_0000 % 0x100, n / 0x100_0000]
    ensures n > 0xffff_ffff ==>
      |EncCompactSize(n)| == 9 && EncCompactSize(n)[0] == 255 && UnLE(EncCompactSize(n)[1..]) == n
  {
    Pow256Table();
    if n < 253 {
      LittleEndian(n, 1, 0);
    } else if n <= 0xffff {
      LittleEndian(n, 2, 0);
      LittleEndian(n, 2, 1);
    } else if n <= 0xffff_ffff {
      Word(n);
    } else {
      UnLEOfLE(n, 8);
    }
  }

  /** How each transaction format begins: its number, with the top bit from v3 on, and then its group. */
  lemma VersionBytes(v: TxVersion)
    ensures EncVersion(v) ==
      match v
      case PreOverwinter(n) => LE(n, 4)
      case V3 => [3, 0, 0, 0x80, 0x70, 0x82, 0xC4, 0x03]
      case V4 => [4, 0, 0, 0x80, 0x85, 0x20, 0x2F, 0x89]
      case V5 => [5, 0, 0, 0x80, 0x0A, 0x27, 0xA7, 0x26]
      case V6 => [6, 0, 0, 0x80, 0x98, 0xB6, 0x84, 0xD8]
      case VCrosslink => [7, 0, 0, 0x80, 0xFE, 0xFF, 0xFF, 0xFF]
  {
    hide LE;
    if !v.PreOverwinter? {
      var n := TxVersions.VersionNumber(v);
      Word(0x8000_0000 + n);
      GroupBytes(v);
      assert EncVersion(v) == [n, 0, 0, 0x80] + LE(VersionGroupId(v), 4);
    }
  }

  lemma GroupBytes(v: TxVersion)
    requires !v.PreOverwinter?
    ensures LE(VersionGroupId(v), 4) ==
      match v
      case V3 => [0x70, 0x82, 0xC4, 0x03]
      case V4 => [0x85, 0x20, 0x2F, 0x89]
      case V5 => [0x0A, 0x27, 0xA7, 0x26]
      case V6 => [0x98, 0xB6, 0x84, 0xD8]
      case VCrosslink => [0xFE, 0xFF, 0xFF, 0xFF]
  {
    hide LE;
    match v
    case V3 => WordOf(0x03C4_8270, 0x70, 0x82, 0xC4, 0x03);
    case V4 => WordOf(0x892F_2085, 0x85, 0x20, 0x2F, 0x89);
    case V5 => WordOf(0x26A7_270A, 0x0A, 0x27, 0xA7, 0x26);
    case V6 => WordOf(0xD884_B698, 0x98, 0xB6, 0x84, 0xD8);
    case VCrosslink => WordOf(0xFFFF_FFFE, 0xFE, 0xFF, 0xFF, 0xFF);
  }

  //////////////////////////////////////////////////////////////////////////////
  // BFT
  //////////////////////////////////////////////////////////////////////////////

  /** The word that holds kind and round: the top bit says precommit, the rest is the round. */
  lemma RoundWordBytes(kind: VoteKind, round: Round)
    ensures var w := LE(RoundWord(kind, round), 4);
      && (w[3] >= 0x80 <==> kind == Precommit)
      && UnLE(w) % 0x8000_0000 == round
  {
    Word(RoundWord(kind, round));
    Number(RoundWord(kind, round), 4);
    hide LE, UnLE;
  }

  /** A vote's 76 bytes: key, value or zeros, eight bytes of height, the round word. */
  lemma VoteLayout(v: Vote)
    ensures var b := EncVote(v);
      && |b| == 76 && b[..32] == v.validator
      && b[32..64] == (if v.value.Some? then v.value.value else Zeros(32))
      && UnLE(b[64..72]) == v.height
      && (b[75] >= 0x80 <==> v.kind == Precommit)
      && UnLE(b[72..]) % 0x8000_0000 == v.round
  {
    var height, word := LE(v.height, 8), LE(RoundWord(v.kind, v.round), 4);
    RoundWordBytes(v.kind, v.round);
    Number(v.height, 8);
    hide LE;
    var b := EncVote(v);
    assert b[64..72] == height && b[72..] == word;
    assert b[75] == word[3];
  }

  /** Items of one width stand at the multiples of that width. */
  lemma {:induction false} ItemAt<T>(xs: seq<T>, enc: T -> Bytes, width: nat, i: nat)
    requires i < |xs| && forall x :: x in xs ==> |enc(x)| == width
    ensures At(Concat(xs, enc), i * width, enc(xs[i]))
  {
    var rest := Concat(xs[1..], enc);
    assert |enc(xs[0])| == width;
    if i > 0 {
      ItemAt(xs[1..], enc, width, i - 1);
      assert i * width == width + (i - 1) * width;
      var at := (i - 1) * width;
      assert (enc(xs[0]) + rest)[width + at..width + at + width] == rest[at..at + width];
    }
  }

  /** A fat pointer: the last 44 bytes of its votes, a 16-bit count, then key and signature of each entry. */
  lemma FatPointerLayout(fp: FatPointer, i: nat)
    requires Fits(fp) && i < |fp.signatures|
    ensures var b := EncFatPointer(fp);
      && b[..44] == EncVote(Inflate(fp)[i].vote)[32..]
      && UnLE(b[44..46]) == |fp.signatures|
      && At(b, 46 + 96 * i, fp.signatures[i].pubKey) && At(b, 78 + 96 * i, fp.signatures[i].signature)
  {
    InflatedVoteBytes(fp, i);
    FatPointerPieces(fp);
    ItemAt(fp.signatures, EncSig, 96, i);
    hide UnLE, Concat, EncVote, Inflate, EncFatPointer;
    EntryAt(EncFatPointer(fp), 46, Concat(fp.signatures, EncSig), i * 96, fp.signatures[i]);
  }

  lemma FatPointerPieces(fp: FatPointer)
    requires Fits(fp)
    ensures var b := EncFatPointer(fp);
      && |b| >= 46 && UnLE(b[44..46]) == |fp.signatures| && At(b, 46, Concat(fp.signatures, EncSig))
  {
    Number(|fp.signatures|, 2);
    Cut3(EncTemplate(fp.blockHash, fp.height, fp.kind, fp.round), LE(|fp.signatures|, 2),
         Concat(fp.signatures, EncSig));
    hide LE, UnLE, Concat, EncTemplate;
  }

  lemma EntryAt(b: Bytes, i: nat, sigs: Bytes, j: nat, e: SigEntry)
    requires At(b, i, sigs) && At(sigs, j, EncSig(e))
    ensures At(b, i + j, e.pubKey) && At(b, i + j + 32, e.signature)
  {
    AtInside(b, i, sigs, j, EncSig(e));
    Cut3(e.pubKey, e.signature, []);
    assert EncSig(e) + [] == EncSig(e) && At(EncSig(e), 0, e.pubKey) && At(EncSig(e), 32, e.signature);
    hide EncSig;
    AtInside(b, i + j, EncSig(e), 0, e.pubKey);
    AtInside(b, i + j, EncSig(e), 32, e.signature);
  }

  /** What a finalizer signs: the 76 bytes of the vote, and then the namespace if there is one. */
  lemma SignedMessage(fp: FatPointer, i: nat, namespace: Option<Bytes32>, ed: Ed25519)
    requires i < |fp.signatures|
    ensures var m := Message(fp, i, namespace);
      && |m| == (if namespace.Some? then 108 else 76)
      && m[..76] == EncVote(Inflate(fp)[i].vote) && m[76..] == (if namespace.Some? then namespace.value else [])
      && (Verify(ed, Inflate(fp)[i], namespace) <==> ed(fp.signatures[i].pubKey, fp.signatures[i].signature, m))
  {
    InflatedVoteBytes(fp, i);
    hide EncVote, EncFatPointer;
  }

  /** A hard fork rule: both heights in eight bytes, a 32-bit count, the keys. */
  lemma HardForkLayout(hf: HardForks.HardFork)
    requires |hf.finalizers| <= 0xffff_ffff
    ensures var b := HardForks.EncHardFork(hf);
      && |b| >= 20 && UnLE(b[..8]) == hf.powActivationHeight && UnLE(b[8..16]) == hf.bftCertificateHeight
      && UnLE(b[16..20]) == |hf.finalizers|
      && forall i :: 0 <= i < |hf.finalizers| ==> At(b, 20 + 32 * i, hf.finalizers[i])
  {
    HardForkHead(hf);
    var b, keys := HardForks.EncHardFork(hf), Concat(hf.finalizers, HardForks.EncKey);
    hide UnLE, Concat, HardForks.EncHardFork;
    forall i | 0 <= i < |hf.finalizers| ensures At(b, 20 + 32 * i, hf.finalizers[i]) {
      ItemAt(hf.finalizers, HardForks.EncKey, 32, i);
      AtInside(b, 20, keys, i * 32, hf.finalizers[i]);
    }
  }

  lemma HardForkHead(hf: HardForks.HardFork)
    requires |hf.finalizers| <= 0xffff_ffff
    ensures var b := HardForks.EncHardFork(hf);
      && |b| >= 20 && UnLE(b[..8]) == hf.powActivationHeight && UnLE(b[8..16]) == hf.bftCertificateHeight
      && UnLE(b[16..20]) == |hf.finalizers| && b[20..] == Concat(hf.finalizers, HardForks.EncKey)
  {
    Number(hf.powActivationHeight, 8);
    Number(hf.bftCertificateHeight, 8);
    Number(|hf.finalizers|, 4);
    hide LE, UnLE, Concat;
    Cut4(LE(hf.powActivationHeight, 8), LE(hf.bftCertificateHeight, 8), LE(|hf.finalizers|, 4),
         Concat(hf.finalizers, HardForks.EncKey));
  }

  /**
   * A block: version, height (one more in version 1), fat pointer, four zero bytes, header count, the
   * headers' own bytes, and, from version 2 on only, more.
   */
  lemma BlockLayout(b: BftBlock)
    requires Representable(b)
    ensures var e := EncBlock(b);
            var at := 8 + |EncFatPointer(b.previous)|;
            var headers := Concat(b.headers, EncHeader);
      && |e| >= at + 8 + |headers|
      && UnLE(e[..4]) == (if b.version.V1? then 1 else b.version.version)
      && UnLE(e[4..8]) == (if b.version.V1? then b.height + 1 else b.height)
      && e[8..at] == EncFatPointer(b.previous) && e[at..at + 4] == [0, 0, 0, 0]
      && UnLE(e[at + 4..at + 8]) == |b.headers| && e[at + 8..at + 8 + |headers|] == headers
      && (b.version.V1? ==> |e| == at + 8 + |headers|)
  {
    BlockPieces(b);
    BlockNumbers(b);
    ZeroWord();
    hide LE, UnLE, EncFatPointer, Concat, EncBlock, Representable;
  }

  lemma BlockNumbers(b: BftBlock)
    requires Representable(b)
    ensures UnLE(LE(BftBlocks.VersionNumber(b), 4)) == if b.version.V1? then 1 else b.version.version
    ensures UnLE(LE(WireHeight(b), 4)) == if b.version.V1? then b.height + 1 else b.height
    ensures UnLE(LE(|b.headers|, 4)) == |b.headers|
  {
    Number(BftBlocks.VersionNumber(b), 4);
    Number(WireHeight(b), 4);
    Number(|b.headers|, 4);
    hide LE, UnLE, Fits, AllFramed, AllReadable;
  }

  /** That is a one-byte count, the rules, and a height in eight bytes. */
  lemma RulesLayout(b: BftBlock)
    requires b.version.V2Plus? && |b.version.hardforks| <= 255
    ensures var e := EncBlock(b);
            var at := 16 + |EncFatPointer(b.previous)| + |Concat(b.headers, EncHeader)|;
            var rules := Concat(b.version.hardforks, HardForks.EncHardFork);
      && |e| == at + 9 + |rules| && e[at..at + 1] == [|b.version.hardforks|]
      && e[at + 1..at + 1 + |rules|] == rules && UnLE(e[at + 1 + |rules|..]) == b.version.doNotIncludeUntil
  {
    var count, until := LE(|b.version.hardforks|, 1), LE(b.version.doNotIncludeUntil, 8);
    var rules := Concat(b.version.hardforks, HardForks.EncHardFork);
    var front := EncUpToSlot(b) + LE(0, 4) + EncHeaders(b.headers);
    hide *;
    OneByte(|b.version.hardforks|);
    Number(b.version.doNotIncludeUntil, 8);
    BlockEnds(b);
    CutBehind(EncBlock(b), front, count, rules, until);
  }

  lemma CutBehind(e: Bytes, front: Bytes, a: Bytes, b: Bytes, c: Bytes)
    requires e == front + (a + b + c)
    ensures var i := |front|; var j := i + |a|; var k := j + |b|;
      |e| == k + |c| && e[i..j] == a && e[j..k] == b && e[k..] == c
  {
    Regroup2(a, b, c);
    Regroup3(front, a, b, c);
    Cut4(front, a, b, c);
  }

  lemma BlockEnds(b: BftBlock)
    ensures var front := EncUpToSlot(b) + LE(0, 4) + EncHeaders(b.headers);
      && |front| == 16 + |EncFatPointer(b.previous)| + |Concat(b.headers, EncHeader)|
      && EncBlock(b) == front + EncVersionData(b.version)
    ensures b.version.V2Plus? ==>
      EncVersionData(b.version) == LE(|b.version.hardforks|, 1) + Concat(b.version.hardforks, HardForks.EncHardFork)
                                   + LE(b.version.doNotIncludeUntil, 8)
  {
    hide LE, Concat, EncFatPointer;
    Regroup2(EncUpToSlot(b) + LE(0, 4), EncHeaders(b.headers), EncVersionData(b.version));
  }

  lemma BlockPieces(b: BftBlock)
    ensures var e, fat, headers, data :=
              EncBlock(b), EncFatPointer(b.previous), Concat(b.headers, EncHeader), EncVersionData(b.version);
            var at := 8 + |fat|;
      && |e| == at + 8 + |headers| + |data|
      && e[..4] == LE(BftBlocks.VersionNumber(b), 4) && e[4..8] == LE(WireHeight(b), 4) && e[8..at] == fat
      && e[at..at + 4] == LE(0, 4) && e[at + 4..at + 8] == LE(|b.headers|, 4)
      && e[at + 8..at + 8 + |headers|] == headers && e[at + 8 + |headers|..] == data
  {
    hide LE, EncFatPointer, Concat, EncVersionData;
    RegroupBlock(b, LE(0, 4), []);
    assert EncBlock(b) + [] == EncBlock(b) && EncVersionData(b.version) + [] == EncVersionData(b.version);
  }

  //////////////////////////////////////////////////////////////////////////////
  // Transactions
  //////////////////////////////////////////////////////////////////////////////

  /** From v5 on: header, transparent part, Sapling, Orchard, and then Ironwood in v6 or staking in VCrosslink. */
  lemma ModernSections(d: TxData)
    requires !Legacy(d.version) && TxBytes(d).Success?
    ensures TxBytes(d).value ==
      EncVersion(d.version)
      + (LE(BranchToU32(d.branch), 4) + (LE(d.lockTime, 4) + (LE(d.expiry, 4)
      + (EncTransparent(d.transparent) + (EncSaplingV5(d.sapling) + (Orchard.EncOrchard(d.orchard)
      + (if d.version.V6? then Orchard.EncOrchard(d.ironwood)
         else if d.version.VCrosslink? then EncStaking(d.staking) else [])))))))
  {
    hide LE, EncTransparent, EncSaplingV5, Orchard.EncOrchard, EncStaking, EncVersion;
    var t, s := EncTransparent(d.transparent), EncSaplingV5(d.sapling);
    var o, x := Orchard.EncOrchard(d.orchard), EncExtra(d);
    assert x + [] == x && EncModern(d) + [] == EncModern(d);
    Regroup5(EncFragment(d), t, s, o, x, []);
    Regroup3(LE(BranchToU32(d.branch), 4), LE(d.lockTime, 4), LE(d.expiry, 4), t + (s + (o + x)));
  }

  /** v4: transparent part, lock time, expiry, Sapling balance, spends and outputs, JoinSplits, binding signature. */
  lemma V4Sections(d: TxData)
    requires d.version.V4? && TxBytes(d).Success?
    ensures var (balance, spends, outputs, sig) := match d.sapling
              case None => (0, [], [], [])
              case Some(b) => (b.valueBalance, b.spends, b.outputs, b.bindingSig);
      TxBytes(d).value ==
      EncVersion(V4)
      + (EncTransparent(d.transparent) + (LE(d.lockTime, 4) + (LE(d.expiry, 4) + (EncBalance(balance)
      + (EncVector(spends, EncSpendV4) + (EncVector(outputs, EncOutputV4) + (EncSprout(d.sprout) + sig)))))))
  {
    hide LE, EncTransparent, EncSprout, EncVersion, EncBalance, EncVector;
    var c := ComponentsOf(d.sapling, 0);
    var t, locks, sapling, sprout, sig :=
      EncTransparent(d.transparent), EncLocks(d), EncLegacySapling(d, 0), EncLegacySprout(d), EncBindingSig(d);
    assert sig + [] == sig && EncLegacy(d, 0) + [] == EncLegacy(d, 0);
    Regroup5(t, locks, sapling, sprout, sig, []);
    Regroup2(LE(d.lockTime, 4), LE(d.expiry, 4), sapling + (sprout + sig));
    Regroup3(EncBalance(c.balance), EncVector(c.spends, EncSpendV4), EncVector(c.outputs, EncOutputV4), sprout + sig);
  }

  /**
   * A Sapling bundle from v5 on: spends, outputs, balance, the anchor if there is a spend, spend proofs,
   * spend signatures, output proofs, binding signature.
   */
  lemma SaplingSections(b: SaplingBundle)
    requires !NoDescriptions(b)
    ensures EncSaplingV5(Some(b)) ==
      EncVector(Map(b.spends, Compact), EncSpendV5) + (EncVector(Map(b.outputs, CompactOutput), EncOutputV5)
      + (EncBalance(b.valueBalance) + ((if b.spends == [] then [] else b.spends[0].anchor)
      + (Concat(Map(b.spends, ProofOf), RawProof) + (Concat(Map(b.spends, SigOf), RawSig)
      + (Concat(Map(b.outputs, OutputProofOf), RawProof) + b.bindingSig))))))
  {
    hide EncVector, Map, Concat, EncBalance;
    var spends := EncVector(Map(b.spends, Compact), EncSpendV5);
    var outputs := EncVector(Map(b.outputs, CompactOutput), EncOutputV5);
    var anchor: Bytes := if b.spends == [] then [] else b.spends[0].anchor;
    var w := WitnessesOf(b);
    var proofs, sigs := Concat(w.spendProofs, RawProof), Concat(w.spendSigs, RawSig);
    var outputProofs := Concat(w.outputProofs, RawProof);
    Regroup2(spends, outputs, EncBalanceAndAnchor(b.valueBalance, AnchorOf(b)) + EncWitnesses(w));
    Regroup2(EncBalance(b.valueBalance), anchor, EncWitnesses(w));
    Regroup2(proofs, sigs, outputProofs + b.bindingSig);
    Regroup2(proofs + sigs, outputProofs, b.bindingSig);
  }

  /** An Orchard bundle: actions, flags, balance, anchor, proof, action signatures, binding signature. */
  lemma OrchardSections(b: Orchard.OrchardBundle)
    ensures Orchard.EncOrchard(Some(b)) ==
      EncVector(Map(b.actions, Orchard.BodyOf), Orchard.EncActionBody)
      + ([b.flags] + (EncBalance(b.valueBalance) + (b.anchor + (EncBlob(b.proof)
      + (Concat(Map(b.actions, Orchard.AuthOf), RawSig) + b.bindingSig)))))
  {
    OneByte(b.flags);
    hide LE, EncVector, Map, Concat, EncBalance, EncBlob;
    var actions := EncVector(Map(b.actions, Orchard.BodyOf), Orchard.EncActionBody);
    var data := Orchard.EncBundleData(b.flags, b.valueBalance, b.anchor, b.proof);
    var auth := Orchard.EncAuthData(Map(b.actions, Orchard.AuthOf), b.bindingSig);
    Regroup2(actions, data, auth);
    Regroup4([b.flags], EncBalance(b.valueBalance), b.anchor, EncBlob(b.proof), auth);
  }

  /** An Orchard action's 820 bytes. */
  lemma ActionLayout(a: Orchard.ActionBody)
    ensures var b := Orchard.EncActionBody(a);
      && |b| == 820 && At(b, 0, a.cv) && At(b, 32, a.nf) && At(b, 64, a.rk) && At(b, 96, a.cmx) && At(b, 128, a.epk)
      && At(b, 160, a.enc) && At(b, 740, a.out)
  {
    var b, tail := Orchard.EncActionBody(a), Orchard.EncCiphertexts(a);
    assert b[128..] == tail;
    assert tail[..32] == a.epk && tail[32..612] == a.enc && tail[612..] == a.out;
  }

  /** The two Sapling layouts: v4 adds the anchor, proof and signature of a spend and the proof of an output. */
  lemma SaplingLayouts(s: Spend, o: Output)
    ensures var b := EncSpendV4(s);
      && |b| == 384 && At(b, 0, s.cv) && At(b, 32, s.anchor) && At(b, 64, s.nullifier) && At(b, 96, s.rk)
      && At(b, 128, s.proof) && At(b, 320, s.sig)
    ensures var b := EncOutputV4(o);
      && |b| == 948 && At(b, 0, EncOutputV5(CompactOutput(o))) && At(b, 756, o.proof)
      && At(b, 0, o.cv) && At(b, 32, o.cmu) && At(b, 64, o.epk) && At(b, 96, o.enc) && At(b, 676, o.out)
  {
  }

  /** A JoinSplit: both public values, then everything in fixed places; only the proof's size varies. */
  lemma JoinSplitLayout(js: JsDescription)
    ensures var b, n := EncJs(js), if js.proof.Groth? then 192 else 296;
      && |b| == 1506 + n && UnLE(b[..8]) == js.vpubOld && UnLE(b[8..16]) == js.vpubNew && At(b, 16, js.anchor)
      && At(b, 48, js.nullifiers.0) && At(b, 80, js.nullifiers.1)
      && At(b, 112, js.commitments.0) && At(b, 144, js.commitments.1)
      && At(b, 176, js.epk) && At(b, 208, js.seed) && At(b, 240, js.macs.0) && At(b, 272, js.macs.1)
      && At(b, 304, ProofBytes(js.proof)) && At(b, 304 + n, js.ciphertexts.0) && At(b, 905 + n, js.ciphertexts.1)
  {
    JoinSplitHead(js);
    JoinSplitTail(js);
    hide EncJsHead, EncJsTail, EncPair, ProofBytes, UnLE;
    var b := EncJs(js);
    assert b[..8] == EncJsHead(js)[..8] && b[8..16] == EncJsHead(js)[8..16];
  }

  lemma JoinSplitHead(js: JsDescription)
    ensures var b := EncJsHead(js);
      && |b| == 176 && UnLE(b[..8]) == js.vpubOld && UnLE(b[8..16]) == js.vpubNew && At(b, 16, js.anchor)
      && At(b, 48, js.nullifiers.0) && At(b, 80, js.nullifiers.1)
      && At(b, 112, js.commitments.0) && At(b, 144, js.commitments.1)
  {
    Number(js.vpubOld, 8);
    Number(js.vpubNew, 8);
    var b := EncJsHead(js);
    PairLength(js.nullifiers);
    PairLength(js.commitments);
    hide LE, UnLE, EncPair;
    var w := LE(js.vpubOld, 8) + LE(js.vpubNew, 8) + js.anchor;
    Cut3(LE(js.vpubOld, 8), LE(js.vpubNew, 8), js.anchor);
    Cut3(w, EncPair(js.nullifiers), EncPair(js.commitments));
    assert b[..48] == w;
    hide EncJsHead;
    assert b[..8] == b[..48][..8] && b[8..16] == b[..48][8..16] && b[16..48] == b[..48][16..];
    PairAt(b, 48, js.nullifiers);
    PairAt(b, 112, js.commitments);
  }

  lemma PairLength(p: (Bytes32, Bytes32))
    ensures |EncPair(p)| == 64
  {
  }

  lemma PairAt(b: Bytes, i: nat, p: (Bytes32, Bytes32))
    requires i + 64 <= |b| && b[i..i + 64] == EncPair(p)
    ensures At(b, i, p.0) && At(b, i + 32, p.1)
  {
    assert b[i..i + 32] == b[i..i + 64][..32] && b[i + 32..i + 64] == b[i..i + 64][32..];
  }

  lemma JoinSplitTail(js: JsDescription)
    ensures var b, n := EncJsTail(js), if js.proof.Groth? then 192 else 296;
      && |b| == 1330 + n && At(b, 0, js.epk) && At(b, 32, js.seed) && At(b, 64, js.macs.0) && At(b, 96, js.macs.1)
      && At(b, 128, ProofBytes(js.proof)) && At(b, 128 + n, js.ciphertexts.0) && At(b, 729 + n, js.ciphertexts.1)
  {
  }

  function KindByte(a: StakingAction): byte {
    match a
    case CreateNewDelegationBond(_, _, _) => 1
    case BeginDelegationUnbonding(_) => 2
    case WithdrawDelegationBond(_, _) => 3
    case RetargetDelegationBond(_, _) => 4
    case RegisterFinalizer(_) => 5
    case ConvertFinalizerReward(_, _, _, _) => 6
    case UpdateFinalizerKey(_, _, _) => 7
  }

  /** A staking action: its kind, key, challenge and signature, and then what the kind asks for. */
  lemma StakingLayout(a: StakingAction)
    ensures var b := EncStaking(Some(a));
      && |b| == 129 + |EncTail(a)| && b[0] == KindByte(a) && b[129..] == EncTail(a)
      && At(b, 1, a.auth.uniquePubkey) && At(b, 33, a.auth.challenge) && At(b, 65, a.auth.signature)
  {
    var tag, auth := LE(Tag(a), 1), EncBondAuth(a.auth);
    Cut3(a.auth.uniquePubkey, a.auth.challenge, a.auth.signature);
    Cut3(tag, auth, EncTail(a));
    LittleEndian(Tag(a), 1, 0);
    var b := EncStaking(Some(a));
    hide LE, EncTail, EncBondAuth, EncStaking;
    assert b[..1] == tag && b[0] == b[..1][0] && At(b, 1, auth);
    AtInside(b, 1, auth, 0, a.auth.uniquePubkey);
    AtInside(b, 1, auth, 32, a.auth.challenge);
    AtInside(b, 1, auth, 64, a.auth.signature);
  }

  /** A finalizer's key, an amount in eight bytes, a second challenge and signature, where the kind has them. */
  lemma StakingTail(a: StakingAction)
    ensures var b := EncTail(a);
      match a
      case CreateNewDelegationBond(_, target, amount) => |b| == 40 && At(b, 0, target) && UnLE(b[32..]) == amount
      case WithdrawDelegationBond(_, amount) => |b| == 8 && UnLE(b) == amount
      case RetargetDelegationBond(_, target) => b == target
      case ConvertFinalizerReward(_, finalizer, amount, second) =>
        && |b| == 136 && At(b, 0, finalizer) && UnLE(b[32..40]) == amount
        && At(b, 40, second.challenge) && At(b, 72, second.signature)
      case UpdateFinalizerKey(_, finalizer, second) =>
        |b| == 128 && At(b, 0, finalizer) && At(b, 32, second.challenge) && At(b, 64, second.signature)
      case _ => b == []
  {
    match a
    case CreateNewDelegationBond(_, target, amount) =>
      Number(amount, 8);
    case WithdrawDelegationBond(_, amount) =>
      Number(amount, 8);
    case ConvertFinalizerReward(_, finalizer, amount, second) =>
      Number(amount, 8);
      Cut3(finalizer, LE(amount, 8), EncFinalizerAuth(second));
    case _ =>
  }
}
