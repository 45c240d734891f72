/** BFT blocks: the encoding finalizers sign, its reader, and the block hash. */
module BftBlocks {
  import opened ByteStrings
  import opened Io
  import opened FatPointers
  import opened HardForks
  import opened PowHeaders
  import opened Votes

  const MAX_HEADER_COUNT: nat := 2048
  const MAX_HARDFORKS_PER_BLOCK: nat := 255

  /** Versions 2 and above share one layout. */
  datatype BlockVersion =
    | V1
    | V2Plus(version: u32, hardforks: seq<HardFork>, doNotIncludeUntil: u32)

  datatype BftBlock = BftBlock(
    version: BlockVersion, height: u32, previous: FatPointer, headers: seq<EncodedPowHeader>)

  function VersionNumber(b: BftBlock): u32 {
    match b.version
    case V1 => 1
    case V2Plus(v, _, _) => v
  }

  //////////////////////////////////////////////////////////////////////////////
  // Encoding
  //////////////////////////////////////////////////////////////////////////////

  /** The blocks that survive the wire. */
  predicate Representable(b: BftBlock) {
    && (b.version.V1? ==> b.height < 0xffff_ffff)
    && (b.version.V2Plus? ==>
      && b.version.version >= 2
      && |b.version.hardforks| <= MAX_HARDFORKS_PER_BLOCK
      && AllReadable(b.version.hardforks))
    && Fits(b.previous)
    && |b.headers| <= MAX_HEADER_COUNT
    && AllFramed(b.headers)
  }

  predicate AllReadable(hardforks: seq<HardFork>) {
    forall hf :: hf in hardforks ==> Readable(hf)
  }

  predicate AllFramed(headers: seq<EncodedPowHeader>) {
    forall h :: h in headers ==> WellFramed(h)
  }

  /** Version 1 heights are 1-based on the wire. */
  function WireHeight(b: BftBlock): nat {
    if b.version.V1? then b.height + 1 else b.height
  }

  function EncHeader(h: EncodedPowHeader): Bytes {
    h.bytes
  }

  function EncVersionData(v: BlockVersion): Bytes {
    match v
    case V1 => []
    case V2Plus(_, hardforks, until) => LE(|hardforks|, 1) + Concat(hardforks, EncHardFork) + LE(until, 8)
  }

  function EncHeaders(headers: seq<EncodedPowHeader>): Bytes {
    LE(|headers|, 4) + Concat(headers, EncHeader)
  }

  /** The layout with the given bytes in the slot that readers ignore. */
  function EncWithSlot(b: BftBlock, slot: Bytes): Bytes {
    EncUpToSlot(b) + slot + (EncHeaders(b.headers) + EncVersionData(b.version))
  }

  function EncUpToSlot(b: BftBlock): Bytes {
    LE(VersionNumber(b), 4) + LE(WireHeight(b), 4) + EncFatPointer(b.previous)
  }

  function EncBlock(b: BftBlock): Bytes {
    EncWithSlot(b, LE(0, 4))
  }

  //////////////////////////////////////////////////////////////////////////////
  // Parsing
  //////////////////////////////////////////////////////////////////////////////

  function ParseVersionData(version: u32, s: Bytes): Parsed<BlockVersion> {
    if version < 2 then Done(V1, s) else
      var (count, s) :- ParseU8(s);
      var (hardforks, s) :- Many([], count, s, ParseHardFork);
      var (until, s) :- ParseHeight(s);
      Done(V2Plus(version, hardforks, until), s)
  }

  function ParseHeaders(s: Bytes): Parsed<seq<EncodedPowHeader>> {
    var (count, s) :- ParseU32(s);
    if count > MAX_HEADER_COUNT then Bad(InvalidData) else Many([], count, s, ParseEncoded)
  }

  function ParseBlock(s: Bytes): Parsed<BftBlock> {
    var (version, s) :- ParseU32(s);
    if version == 0 then Bad(InvalidData) else
      var (raw, s) :- ParseU32(s);
      if version < 2 && raw == 0 then Bad(InvalidData) else
        var (previous, s) :- ParseFatPointer(s);
        var (_, s) :- ParseU32(s);
        var (headers, s) :- ParseHeaders(s);
        var (data, s) :- ParseVersionData(version, s);
        Done(BftBlock(data, if version < 2 then raw - 1 else raw, previous, headers), s)
  }

  //////////////////////////////////////////////////////////////////////////////
  // Round trip and fibres
  //////////////////////////////////////////////////////////////////////////////

  lemma HeadersRoundTrip(headers: seq<EncodedPowHeader>, t: Bytes)
    requires |headers| <= MAX_HEADER_COUNT && AllFramed(headers)
    ensures ParseHeaders(EncHeaders(headers) + t) == Done(headers, t)
  {
    hide ParseEncoded;
    var all := Concat(headers, EncHeader);
    Regroup2(LE(|headers|, 4), all, t);
    U32RoundTrip(|headers|, all + t);
    forall h | h in headers ensures RoundTrips(h, EncHeader, ParseEncoded) {
      forall u ensures ParseEncoded(EncHeader(h) + u) == Done(h, u) {
        EncodedRoundTrip(h, u);
      }
    }
    ManyRoundTrip(headers, t, EncHeader, ParseEncoded);
  }

  lemma HeadersReencode(s: Bytes)
    requires ParseHeaders(s).Done?
    ensures |ParseHeaders(s).value| <= MAX_HEADER_COUNT && AllFramed(ParseHeaders(s).value)
    ensures s == EncHeaders(ParseHeaders(s).value) + ParseHeaders(s).rest
  {
    hide ParseEncoded, WellFramed;
    var headers, t := ParseHeaders(s).value, ParseHeaders(s).rest;
    var s1 := ParseU32(s).rest;
    forall u ensures Reencodes(u, EncHeader, ParseEncoded) {
      if ParseEncoded(u).Done? {
        EncodedReencodes(u);
      }
    }
    ManyReencodes([], |headers|, s1, EncHeader, ParseEncoded);
    forall u | ParseEncoded(u).Done? ensures WellFramed(ParseEncoded(u).value) {
      EncodedReencodes(u);
    }
    ManyAll([], |headers|, s1, ParseEncoded, WellFramed);
    Regroup2(LE(|headers|, 4), Concat(headers, EncHeader), t);
  }

  lemma VersionDataRoundTrip(b: BftBlock, t: Bytes)
    requires Representable(b)
    ensures ParseVersionData(VersionNumber(b), EncVersionData(b.version) + t) == Done(b.version, t)
  {
    hide ParseHardFork, EncHardFork;
    match b.version
    case V1 =>
      assert [] + t == t;
    case V2Plus(version, hardforks, until) =>
      var all := Concat(hardforks, EncHardFork);
      Regroup3(LE(|hardforks|, 1), all, LE(until, 8), t);
      U8RoundTrip(|hardforks|, all + (LE(until, 8) + t));
      forall hf | hf in hardforks ensures RoundTrips(hf, EncHardFork, ParseHardFork) {
        forall u ensures ParseHardFork(EncHardFork(hf) + u) == Done(hf, u) {
          HardForkRoundTrip(hf, u);
        }
      }
      ManyRoundTrip(hardforks, LE(until, 8) + t, EncHardFork, ParseHardFork);
      HeightRoundTrip(until, t);
  }

  lemma VersionDataReencodes(version: u32, s: Bytes)
    requires ParseVersionData(version, s).Done?
    ensures var v := ParseVersionData(version, s).value;
      && s == EncVersionData(v) + ParseVersionData(version, s).rest
      && (version < 2 ==> v.V1?)
      && (version >= 2 ==>
        && v.V2Plus? && v.version == version
        && |v.hardforks| <= MAX_HARDFORKS_PER_BLOCK && AllReadable(v.hardforks))
  {
    hide ParseHardFork, EncHardFork;
    if version >= 2 {
      var v, t := ParseVersionData(version, s).value, ParseVersionData(version, s).rest;
      var s1 := ParseU8(s).rest;
      forall u ensures Reencodes(u, EncHardFork, ParseHardFork) {
        if ParseHardFork(u).Done? {
          HardForkReencodes(u);
        }
      }
      ManyReencodes([], |v.hardforks|, s1, EncHardFork, ParseHardFork);
      forall u | ParseHardFork(u).Done? ensures Readable(ParseHardFork(u).value) {
        HardForkReencodes(u);
      }
      ManyAll([], |v.hardforks|, s1, ParseHardFork, Readable);
      Regroup3(LE(|v.hardforks|, 1), Concat(v.hardforks, EncHardFork), LE(v.doNotIncludeUntil, 8), t);
    } else {
      assert [] + s == s;
    }
  }

  lemma RegroupBlock(b: BftBlock, slot: Bytes, t: Bytes)
    ensures EncWithSlot(b, slot) + t ==
            LE(VersionNumber(b), 4) + (LE(WireHeight(b), 4) + (EncFatPointer(b.previous)
            + (slot + (EncHeaders(b.headers) + (EncVersionData(b.version) + t)))))
  {
    var tail := EncHeaders(b.headers) + EncVersionData(b.version);
    Regroup3(EncUpToSlot(b), slot, tail, t);
    Regroup3(LE(VersionNumber(b), 4), LE(WireHeight(b), 4), EncFatPointer(b.previous), slot + (tail + t));
    Regroup2(EncHeaders(b.headers), EncVersionData(b.version), t);
  }

  /** Whatever four bytes stand in the slot, the layout of a representable block reads back as that block. */
  lemma SlotIsIgnored(b: BftBlock, slot: Bytes, t: Bytes)
    requires Representable(b) && |slot| == 4
    ensures ParseBlock(EncWithSlot(b, slot) + t) == Done(b, t)
  {
    hide ParseFatPointer, ParseHeaders, ParseVersionData;
    RegroupBlock(b, slot, t);
    var data := EncVersionData(b.version) + t;
    var headers := EncHeaders(b.headers) + data;
    var fat := EncFatPointer(b.previous) + (slot + headers);
    U32RoundTrip(VersionNumber(b), LE(WireHeight(b), 4) + fat);
    U32RoundTrip(WireHeight(b), fat);
    FatPointerRoundTrip(b.previous, slot + headers);
    HeadersRoundTrip(b.headers, data);
    VersionDataRoundTrip(b, t);
  }

  lemma BlockRoundTrip(b: BftBlock, t: Bytes)
    requires Representable(b)
    ensures ParseBlock(EncBlock(b) + t) == Done(b, t)
  {
    SlotIsIgnored(b, LE(0, 4), t);
  }

  /** Every accepted input is the layout of a representable block, with something in the slot. */
  lemma BlockReencodes(s: Bytes) returns (slot: Bytes)
    requires ParseBlock(s).Done?
    ensures Representable(ParseBlock(s).value) && |slot| == 4
    ensures s == EncWithSlot(ParseBlock(s).value, slot) + ParseBlock(s).rest
  {
    var b, t := ParseBlock(s).value, ParseBlock(s).rest;
    var version, s1 := ParseU32(s).value, ParseU32(s).rest;
    var raw, s2 := ParseU32(s1).value, ParseU32(s1).rest;
    var s3 := ParseFatPointer(s2).rest;
    var s4 := ParseU32(s3).rest;
    var s5 := ParseHeaders(s4).rest;
    slot := s3[..4];
    FatPointerReencodes(s2);
    HeadersReencode(s4);
    VersionDataReencodes(version, s5);
    assert VersionNumber(b) == version && WireHeight(b) == raw;
    RegroupBlock(b, slot, t);
  }

  /** Re-encoding an accepted input gives the consumed bytes with the ignored slot set to zero. */
  lemma SlotIsZeroed(c: Bytes, t: Bytes, b: BftBlock)
    requires ParseBlock(c + t) == Done(b, t)
    ensures var at := |EncUpToSlot(b)|;
      && |EncBlock(b)| == |c| && at + 4 <= |c|
      && EncBlock(b) == c[..at] + Zeros(4) + c[at + 4..]
  {
    var slot := BlockReencodes(c + t);
    SuffixCancels(c, EncWithSlot(b, slot), t);
    ZeroWord();
    SlotSplits(EncUpToSlot(b), slot, EncHeaders(b.headers) + EncVersionData(b.version));
  }

  lemma SlotSplits(front: Bytes, slot: Bytes, tail: Bytes)
    requires |slot| == 4
    ensures var c, at := front + slot + tail, |front|;
      |c| == at + 4 + |tail| && c[..at] == front && c[at..at + 4] == slot && c[at + 4..] == tail
  {
  }

  lemma SlotJoins(c: Bytes, at: nat)
    requires at + 4 <= |c|
    ensures c == c[..at] + c[at..at + 4] + c[at + 4..]
  {
  }

  lemma ZeroWord()
    ensures LE(0, 4) == Zeros(4)
  {
    assert LE(0, 4) == [0] + LE(0, 3) && LE(0, 3) == [0] + LE(0, 2);
    assert LE(0, 2) == [0] + LE(0, 1) && LE(0, 1) == [0] + LE(0, 0);
  }

  lemma SuffixCancels(a: Bytes, b: Bytes, t: Bytes)
    requires a + t == b + t
    ensures a == b
  {
    assert |a| == |b|;
    assert (a + t)[..|a|] == a && (b + t)[..|b|] == b;
  }

  /** Two strings agree everywhere but in a four-byte slot at `at`. */
  ghost predicate AgreeOutsideSlot(c: Bytes, c': Bytes, at: nat) {
    |c| == |c'| && at + 4 <= |c| && c[..at] == c'[..at] && c[at + 4..] == c'[at + 4..]
  }

  /** Inputs parse to the same block exactly when what is consumed agrees outside the ignored slot. */
  lemma BlockFibre(c: Bytes, t: Bytes, c': Bytes, t': Bytes, b: BftBlock)
    requires ParseBlock(c + t) == Done(b, t)
    ensures ParseBlock(c' + t') == Done(b, t') <==> AgreeOutsideSlot(c, c', |EncUpToSlot(b)|)
  {
    var slot := BlockReencodes(c + t);
    SuffixCancels(c, EncWithSlot(b, slot), t);
    var front, tail := EncUpToSlot(b), EncHeaders(b.headers) + EncVersionData(b.version);
    SlotSplits(front, slot, tail);
    if ParseBlock(c' + t') == Done(b, t') {
      var slot' := BlockReencodes(c' + t');
      SuffixCancels(c', EncWithSlot(b, slot'), t');
      SlotSplits(front, slot', tail);
    }
    if AgreeOutsideSlot(c, c', |front|) {
      SlotJoins(c', |front|);
      SlotIsIgnored(b, c'[|front|..|front| + 4], t');
    }
  }

  /** A block reads back from its own encoding exactly when it is representable. */
  lemma OnlyRepresentableReadsBack(b: BftBlock, t: Bytes)
    ensures ParseBlock(EncBlock(b) + t) == Done(b, t) <==> Representable(b)
    ensures Representable(b) <==>
      && |b.headers| <= 2048 && AllFramed(b.headers) && |b.previous.signatures| <= 65535
      && match b.version
         case V1 => b.height < 0xffff_ffff
         case V2Plus(version, hardforks, _) =>
           version >= 2 && |hardforks| <= 255 && forall hf :: hf in hardforks ==> |hf.finalizers| <= 4096
  {
    if Representable(b) {
      BlockRoundTrip(b, t);
    }
    if ParseBlock(EncBlock(b) + t) == Done(b, t) {
      var slot := BlockReencodes(EncBlock(b) + t);
    }
  }

  //////////////////////////////////////////////////////////////////////////////
  // Reader and writer
  //////////////////////////////////////////////////////////////////////////////

  method ReadHeaders(r: Reader) returns (res: Result<seq<EncodedPowHeader>>)
    modifies r
    ensures Follows(ParseHeaders(old(r.rest)), res, r.rest)
  {
    hide ParseEncoded;
    var count :- r.ReadU32();
    if count > MAX_HEADER_COUNT {
      return Failure(InvalidData);
    }
    ghost var start := r.rest;
    var headers := [];
    for i := 0 to count
      invariant Many([], count, start, ParseEncoded) == Many(headers, count - i, r.rest, ParseEncoded)
    {
      var h :- ReadEncoded(r);
      headers := headers + [h];
    }
    res := Success(headers);
  }

  method ReadHardForks(r: Reader, count: nat) returns (res: Result<seq<HardFork>>)
    modifies r
    ensures Follows(Many([], count, old(r.rest), ParseHardFork), res, r.rest)
  {
    hide ParseHardFork;
    var hardforks := [];
    for i := 0 to count
      invariant Many([], count, old(r.rest), ParseHardFork) == Many(hardforks, count - i, r.rest, ParseHardFork)
    {
      var hf :- ReadHardFork(r);
      hardforks := hardforks + [hf];
    }
    res := Success(hardforks);
  }

  method ReadVersionData(r: Reader, version: u32) returns (res: Result<BlockVersion>)
    modifies r
    ensures Follows(ParseVersionData(version, old(r.rest)), res, r.rest)
  {
    if version < 2 {
      return Success(V1);
    }
    var count :- r.ReadU8();
    var hardforks :- ReadHardForks(r, count);
    var until :- ReadHeight(r);
    res := Success(V2Plus(version, hardforks, until));
  }

  method ReadBlock(r: Reader) returns (res: Result<BftBlock>)
    modifies r
    ensures Follows(ParseBlock(old(r.rest)), res, r.rest)
  {
    hide ParseFatPointer, ParseHeaders, ParseVersionData, ParseU32;
    var version :- r.ReadU32();
    if version == 0 {
      return Failure(InvalidData);
    }
    var raw :- r.ReadU32();
    var height := raw as int;
    if version < 2 {
      if raw == 0 {
        return Failure(InvalidData);
      }
      height := raw - 1;
    }
    var previous :- ReadFatPointer(r);
    var _ :- r.ReadU32();
    var headers :- ReadHeaders(r);
    var data :- ReadVersionData(r, version);
    res := Success(BftBlock(data, height, previous, headers));
  }

  /** The blocks that can be written, readable or not. */
  predicate Writes(b: BftBlock) {
    && (b.version.V1? ==> b.height < 0xffff_ffff)
    && Fits(b.previous)
    && |b.headers| <= 0xffff_ffff
    && (b.version.V2Plus? ==>
      && |b.version.hardforks| <= MAX_HARDFORKS_PER_BLOCK
      && forall hf :: hf in b.version.hardforks ==> |hf.finalizers| <= 0xffff_ffff)
  }

  method WriteHeaders(w: Writer, headers: seq<EncodedPowHeader>) returns (res: Result<()>)
    modifies w
    ensures res == if |headers| <= 0xffff_ffff then Success(()) else Failure(InvalidData)
    ensures res.Success? ==> w.buf == old(w.buf) + EncHeaders(headers)
  {
    if |headers| > 0xffff_ffff {
      return Failure(InvalidData);
    }
    w.WriteAll(LE(|headers|, 4));
    ghost var start := w.buf;
    for i := 0 to |headers|
      invariant w.buf == start + Concat(headers[..i], EncHeader)
    {
      w.WriteAll(headers[i].bytes);
      ConcatSnoc(headers[..i], headers[i], EncHeader);
      assert headers[..i] + [headers[i]] == headers[..i + 1];
      Regroup2(start, Concat(headers[..i], EncHeader), headers[i].bytes);
    }
    assert headers[..|headers|] == headers;
    Regroup2(old(w.buf), LE(|headers|, 4), Concat(headers, EncHeader));
    res := Success(());
  }

  method WriteHardForks(w: Writer, hardforks: seq<HardFork>) returns (res: Result<()>)
    modifies w
    ensures res == if forall hf :: hf in hardforks ==> |hf.finalizers| <= 0xffff_ffff
                   then Success(()) else Failure(InvalidData)
    ensures res.Success? ==> w.buf == old(w.buf) + Concat(hardforks, EncHardFork)
  {
    hide EncHardFork;
    for i := 0 to |hardforks|
      invariant forall j :: 0 <= j < i ==> |hardforks[j].finalizers| <= 0xffff_ffff
      invariant w.buf == old(w.buf) + Concat(hardforks[..i], EncHardFork)
    {
      var _ :- WriteHardFork(w, hardforks[i]);
      ConcatSnoc(hardforks[..i], hardforks[i], EncHardFork);
      assert hardforks[..i] + [hardforks[i]] == hardforks[..i + 1];
      Regroup2(old(w.buf), Concat(hardforks[..i], EncHardFork), EncHardFork(hardforks[i]));
    }
    assert hardforks[..|hardforks|] == hardforks;
    res := Success(());
  }

  method WriteVersionData(w: Writer, v: BlockVersion) returns (res: Result<()>)
    modifies w
    ensures res == if v.V2Plus? && !(|v.hardforks| <= MAX_HARDFORKS_PER_BLOCK
                                     && forall hf :: hf in v.hardforks ==> |hf.finalizers| <= 0xffff_ffff)
                   then Failure(InvalidData) else Success(())
    ensures res.Success? ==> w.buf == old(w.buf) + EncVersionData(v)
  {
    match v {
      case V1 =>
        assert w.buf + [] == w.buf;
      case V2Plus(_, hardforks, until) =>
        if |hardforks| > MAX_HARDFORKS_PER_BLOCK {
          return Failure(InvalidData);
        }
        w.WriteAll(LE(|hardforks|, 1));
        var _ :- WriteHardForks(w, hardforks);
        w.WriteAll(LE(until, 8));
        Regroup3(old(w.buf), LE(|hardforks|, 1), Concat(hardforks, EncHardFork), LE(until, 8));
        Regroup2(LE(|hardforks|, 1), Concat(hardforks, EncHardFork), LE(until, 8));
    }
    res := Success(());
  }

  method WriteBlock(w: Writer, b: BftBlock) returns (res: Result<()>)
    modifies w
    ensures res == if Writes(b) then Success(()) else Failure(InvalidData)
    ensures res.Success? ==> w.buf == old(w.buf) + EncBlock(b)
  {
    w.WriteAll(LE(VersionNumber(b), 4));
    if b.version.V1? && b.height == 0xffff_ffff {
      return Failure(InvalidData);
    }
    w.WriteAll(LE(if b.version.V1? then b.height + 1 else b.height, 4));
    var _ :- WriteFatPointer(w, b.previous);
    w.WriteAll(LE(0, 4));
    var _ :- WriteHeaders(w, b.headers);
    var _ :- WriteVersionData(w, b.version);
    ghost var version, height, fat := LE(VersionNumber(b), 4), LE(WireHeight(b), 4), EncFatPointer(b.previous);
    ghost var headers, data := EncHeaders(b.headers), EncVersionData(b.version);
    Regroup6(old(w.buf), version, height, fat, LE(0, 4), headers, data);
    RegroupBlock(b, LE(0, 4), []);
    assert EncBlock(b) + [] == EncBlock(b) && data + [] == data;
    res := Success(());
  }

  method ToBytes(b: BftBlock) returns (res: Result<Bytes>)
    ensures res == if Writes(b) then Success(EncBlock(b)) else Failure(InvalidData)
  {
    var w := new Writer();
    var _ :- WriteBlock(w, b);
    assert w.buf == EncBlock(b);
    res := Success(w.buf);
  }

  //////////////////////////////////////////////////////////////////////////////
  // The block hash
  //////////////////////////////////////////////////////////////////////////////

  /** BLAKE3 keyed by a domain, left uninterpreted. */
  type Blake3 = (string, Bytes) -> Bytes32

  const VALUE_ID_DOMAIN: string := "BFT Value ID"

  function BlockHash3(h: Blake3, b: BftBlock): Bytes32 {
    h(VALUE_ID_DOMAIN, EncBlock(b))
  }

  /** Blocks with one hash are one block, or their encodings collide under BLAKE3. */
  lemma HashCommits(h: Blake3, b: BftBlock, c: BftBlock)
    requires Representable(b) && Representable(c)
    requires BlockHash3(h, b) == BlockHash3(h, c)
    ensures b == c ||
      (EncBlock(b) != EncBlock(c) && h(VALUE_ID_DOMAIN, EncBlock(b)) == h(VALUE_ID_DOMAIN, EncBlock(c)))
  {
    if EncBlock(b) == EncBlock(c) {
      BlockRoundTrip(b, []);
      BlockRoundTrip(c, []);
    }
  }

  //////////////////////////////////////////////////////////////////////////////
  // Notarized blocks
  //////////////////////////////////////////////////////////////////////////////

  datatype Notarized = Notarized(block: BftBlock, fatPointer: FatPointer)

  /** Bundles a block with precommit signatures over its hash. */
  function Notarize(h: Blake3, b: BftBlock, height: u32, round: Round, signatures: seq<SigEntry>): Notarized {
    Notarized(b, FatPointer(BlockHash3(h, b), height, round, Precommit, signatures))
  }

  function EncNotarized(n: Notarized): Bytes {
    EncBlock(n.block) + EncFatPointer(n.fatPointer)
  }

  function ParseNotarized(s: Bytes): Parsed<Notarized> {
    var (block, s) :- ParseBlock(s);
    var (fatPointer, s) :- ParseFatPointer(s);
    Done(Notarized(block, fatPointer), s)
  }

  lemma NotarizedRoundTrip(n: Notarized, t: Bytes)
    ensures ParseNotarized(EncNotarized(n) + t) == Done(n, t) <==> Representable(n.block) && Fits(n.fatPointer)
  {
    hide ParseBlock, ParseFatPointer, EncBlock, EncFatPointer, Representable;
    var fat := EncFatPointer(n.fatPointer);
    Regroup2(EncBlock(n.block), fat, t);
    OnlyRepresentableReadsBack(n.block, fat + t);
    var p := ParseBlock(EncBlock(n.block) + (fat + t));
    if p.Done? && ParseFatPointer(p.rest) == Done(n.fatPointer, t) {
      FatPointerReencodes(p.rest);
      if p.value == n.block {
        var slot := BlockReencodes(EncBlock(n.block) + (fat + t));
      }
    }
    if Fits(n.fatPointer) {
      FatPointerRoundTrip(n.fatPointer, t);
    }
  }

  method ReadNotarized(r: Reader) returns (res: Result<Notarized>)
    modifies r
    ensures Follows(ParseNotarized(old(r.rest)), res, r.rest)
  {
    hide ParseBlock, ParseFatPointer;
    var block :- ReadBlock(r);
    var fatPointer :- ReadFatPointer(r);
    res := Success(Notarized(block, fatPointer));
  }

  method WriteNotarized(w: Writer, n: Notarized) returns (res: Result<()>)
    modifies w
    ensures res == if Writes(n.block) && Fits(n.fatPointer) then Success(()) else Failure(InvalidData)
    ensures res.Success? ==> w.buf == old(w.buf) + EncNotarized(n)
  {
    hide Writes, EncBlock, EncFatPointer;
    var _ :- WriteBlock(w, n.block);
    var _ :- WriteFatPointer(w, n.fatPointer);
    Regroup2(old(w.buf), EncBlock(n.block), EncFatPointer(n.fatPointer));
    res := Success(());
  }

  /** A finalizer signature made for one notarized block is good for no other, or BLAKE3 collides. */
  lemma SignatureCommitsToBlock(h: Blake3, n: Notarized, i: nat, m: Notarized, j: nat, ns: Option<Bytes32>)
    requires Representable(n.block) && Representable(m.block)
    requires n == Notarize(h, n.block, n.fatPointer.height, n.fatPointer.round, n.fatPointer.signatures)
    requires m == Notarize(h, m.block, m.fatPointer.height, m.fatPointer.round, m.fatPointer.signatures)
    requires i < |n.fatPointer.signatures| && j < |m.fatPointer.signatures|
    requires Message(n.fatPointer, i, ns) == Message(m.fatPointer, j, ns)
    ensures n.fatPointer.(signatures := []) == m.fatPointer.(signatures := [])
    ensures n.block == m.block ||
      (EncBlock(n.block) != EncBlock(m.block)
       && h(VALUE_ID_DOMAIN, EncBlock(n.block)) == h(VALUE_ID_DOMAIN, EncBlock(m.block)))
  {
    hide EncBlock, Representable;
    MessageBinds(n.fatPointer, i, ns, m.fatPointer, j, ns);
    HashCommits(h, n.block, m.block);
  }
}
