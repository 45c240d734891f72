/** PoW block headers in their two in-memory forms: parsed fields, and exact bytes. */
module PowHeaders {
  import opened ByteStrings
  import opened Io
  import opened FatPointers

  const HEADER_PREFIX_BYTES: nat := 140
  const EQUIHASH_INPUT_BYTES: nat := 108
  const SOLUTION_BYTES_MAINNET: nat := 1344
  const SOLUTION_BYTES_REGTEST: nat := 36
  const MIN_HEADER_VERSION: nat := 4

  type i32 = n: int | -0x8000_0000 <= n < 0x8000_0000

  /** SHA-256, left uninterpreted. */
  type Sha256 = Bytes -> Bytes32

  function Sha256d(sha: Sha256, b: Bytes): Bytes32 {
    sha(sha(b))
  }

  //////////////////////////////////////////////////////////////////////////////
  // Parsed headers
  //////////////////////////////////////////////////////////////////////////////

  datatype HeaderFields = HeaderFields(
    version: i32, prevBlock: Bytes32, merkleRoot: Bytes32, finalSaplingRoot: Bytes32,
    time: u32, bits: u32, nonce: Bytes32)

  datatype BlockHeader = BlockHeader(fields: HeaderFields, solution: Bytes, fatPointer: FatPointer)

  /** The version field is signed here and an unsigned word in the encoded form. */
  function Word(version: i32): u32 {
    if version < 0 then version + 0x1_0000_0000 else version
  }

  function Signed(word: u32): (v: i32)
    ensures Word(v) == word
  {
    if word >= 0x8000_0000 then word - 0x1_0000_0000 else word
  }

  function EncFields(f: HeaderFields): (b: Bytes)
    ensures |b| == HEADER_PREFIX_BYTES
  {
    LE(Word(f.version), 4) + f.prevBlock + f.merkleRoot + f.finalSaplingRoot
    + (LE(f.time, 4) + LE(f.bits, 4) + f.nonce)
  }

  function EncBlockHeader(h: BlockHeader): Bytes {
    EncFields(h.fields) + EncBlob(h.solution) + EncFatPointer(h.fatPointer)
  }

  function ParseFields(s: Bytes): Parsed<HeaderFields> {
    var (word, s) :- ParseU32(s);
    var (prevBlock, s) :- Take(32, s);
    var (merkleRoot, s) :- Take(32, s);
    var (finalSaplingRoot, s) :- Take(32, s);
    var (time, s) :- ParseU32(s);
    var (bits, s) :- ParseU32(s);
    var (nonce, s) :- Take(32, s);
    Done(HeaderFields(Signed(word), prevBlock, merkleRoot, finalSaplingRoot, time, bits, nonce), s)
  }

  function ParseBlockHeader(s: Bytes): Parsed<BlockHeader> {
    var (fields, s) :- ParseFields(s);
    var (solution, s) :- ParseBlob(s);
    var (fatPointer, s) :- ParseFatPointer(s);
    Done(BlockHeader(fields, solution, fatPointer), s)
  }

  predicate Writable(h: BlockHeader) {
    |h.solution| <= MAX_COMPACT_SIZE && Fits(h.fatPointer)
  }

  lemma RegroupFields(f: HeaderFields, t: Bytes)
    ensures EncFields(f) + t ==
            LE(Word(f.version), 4) + (f.prevBlock + (f.merkleRoot + (f.finalSaplingRoot
            + (LE(f.time, 4) + (LE(f.bits, 4) + (f.nonce + t))))))
  {
    var tail := LE(f.time, 4) + LE(f.bits, 4) + f.nonce;
    Regroup5(LE(Word(f.version), 4), f.prevBlock, f.merkleRoot, f.finalSaplingRoot, tail, t);
    Regroup3(LE(f.time, 4), LE(f.bits, 4), f.nonce, t);
  }

  lemma FieldsRoundTrip(f: HeaderFields, t: Bytes)
    ensures ParseFields(EncFields(f) + t) == Done(f, t)
  {
    hide LE, UnLE;
    RegroupFields(f, t);
    var bits := LE(f.bits, 4) + (f.nonce + t);
    U32RoundTrip(Word(f.version), f.prevBlock + (f.merkleRoot + (f.finalSaplingRoot + (LE(f.time, 4) + bits))));
    U32RoundTrip(f.time, bits);
    U32RoundTrip(f.bits, f.nonce + t);
  }

  lemma FieldsReencode(s: Bytes)
    ensures ParseFields(s).Bad? <==> |s| < HEADER_PREFIX_BYTES
    ensures ParseFields(s).Done? ==> s == EncFields(ParseFields(s).value) + ParseFields(s).rest
  {
    hide LE, UnLE;
    if ParseFields(s).Done? {
      var f := ParseFields(s).value;
      var s1 := ParseU32(s).rest;
      var s2 := Take(32, s1).rest;
      var s3 := Take(32, s2).rest;
      var s4 := Take(32, s3).rest;
      var s5 := ParseU32(s4).rest;
      var s6 := ParseU32(s5).rest;
      var t := Take(32, s6).rest;
      assert s4 == LE(f.time, 4) + (LE(f.bits, 4) + (f.nonce + t));
      RegroupFields(f, t);
    }
  }

  lemma BlockHeaderRoundTrip(h: BlockHeader, t: Bytes)
    requires Writable(h)
    ensures ParseBlockHeader(EncBlockHeader(h) + t) == Done(h, t)
  {
    var fat := EncFatPointer(h.fatPointer) + t;
    Regroup3(EncFields(h.fields), EncBlob(h.solution), EncFatPointer(h.fatPointer), t);
    FieldsRoundTrip(h.fields, EncBlob(h.solution) + fat);
    BlobRoundTrip(h.solution, fat);
    FatPointerRoundTrip(h.fatPointer, t);
  }

  lemma BlockHeaderReencodes(s: Bytes)
    requires ParseBlockHeader(s).Done?
    ensures Writable(ParseBlockHeader(s).value)
    ensures s == EncBlockHeader(ParseBlockHeader(s).value) + ParseBlockHeader(s).rest
  {
    var h, t := ParseBlockHeader(s).value, ParseBlockHeader(s).rest;
    FieldsReencode(s);
    var s1 := ParseFields(s).rest;
    BlobReencodes(s1);
    FatPointerReencodes(ParseBlob(s1).rest);
    Regroup3(EncFields(h.fields), EncBlob(h.solution), EncFatPointer(h.fatPointer), t);
  }

  //////////////////////////////////////////////////////////////////////////////
  // Encoded headers
  //////////////////////////////////////////////////////////////////////////////

  datatype EncodedPowHeader = EncodedPowHeader(bytes: Bytes, solutionStart: nat, solutionLen: nat)

  function ParseEncoded(s: Bytes): Parsed<EncodedPowHeader> {
    var (prefix, s) :- Take(HEADER_PREFIX_BYTES, s);
    if UnLE(prefix[..4]) < MIN_HEADER_VERSION then Bad(InvalidData) else
      var (n, s) :- ParseCompactSize(s);
      if n != SOLUTION_BYTES_MAINNET && n != SOLUTION_BYTES_REGTEST then Bad(InvalidData) else
        var start := |prefix + EncCompactSize(n)|;
        var (solution, s) :- Take(n, s);
        var (fat, s) :- ParseFatPointer(s);
        Done(EncodedPowHeader(prefix + EncCompactSize(n) + solution + EncFatPointer(fat), start, n), s)
  }

  /** The only values `EncodedPowHeader::read` can produce: those that read back from their own bytes. */
  predicate WellFramed(e: EncodedPowHeader) {
    ParseEncoded(e.bytes) == Done(e, [])
  }

  /** The parsed headers that have an encoded form. */
  predicate Framed(h: BlockHeader) {
    && Word(h.fields.version) >= MIN_HEADER_VERSION
    && (|h.solution| == SOLUTION_BYTES_MAINNET || |h.solution| == SOLUTION_BYTES_REGTEST)
    && Fits(h.fatPointer)
  }

  function ToEncoded(h: BlockHeader): EncodedPowHeader {
    EncodedPowHeader(EncBlockHeader(h), HEADER_PREFIX_BYTES + |EncCompactSize(|h.solution|)|, |h.solution|)
  }

  function Version(e: EncodedPowHeader): nat
    requires |e.bytes| >= HEADER_PREFIX_BYTES
  {
    UnLE(e.bytes[..4])
  }

  function PrevBlockHash(e: EncodedPowHeader): Bytes
    requires |e.bytes| >= HEADER_PREFIX_BYTES
  {
    e.bytes[4..36]
  }

  function PowHash(sha: Sha256, e: EncodedPowHeader): Bytes32 {
    Sha256d(sha, e.bytes)
  }

  function Solution(e: EncodedPowHeader): Bytes
    requires e.solutionStart + e.solutionLen <= |e.bytes|
  {
    e.bytes[e.solutionStart..e.solutionStart + e.solutionLen]
  }

  lemma FirstWord(f: HeaderFields)
    ensures UnLE(EncFields(f)[..4]) == Word(f.version)
  {
    RegroupFields(f, []);
    assert EncFields(f) + [] == EncFields(f);
    assert EncFields(f)[..4] == LE(Word(f.version), 4);
    Pow256Table();
    UnLEOfLE(Word(f.version), 4);
  }

  lemma EncodedOfParsed(h: BlockHeader, t: Bytes)
    requires Framed(h)
    ensures ParseEncoded(EncBlockHeader(h) + t) == Done(ToEncoded(h), t)
  {
    var fat := EncFatPointer(h.fatPointer) + t;
    Regroup3(EncFields(h.fields), EncBlob(h.solution), EncFatPointer(h.fatPointer), t);
    Regroup2(EncCompactSize(|h.solution|), h.solution, fat);
    FirstWord(h.fields);
    CompactSizeRoundTrip(|h.solution|, h.solution + fat);
    FatPointerRoundTrip(h.fatPointer, t);
    Regroup2(EncFields(h.fields), EncCompactSize(|h.solution|), h.solution);
  }

  /** What the encoded reader accepts, the field reader accepts too, with the same bytes consumed. */
  lemma ParsedOfEncoded(s: Bytes)
    requires ParseEncoded(s).Done?
    ensures ParseBlockHeader(s).Done? && Framed(ParseBlockHeader(s).value)
    ensures ParseEncoded(s) == Done(ToEncoded(ParseBlockHeader(s).value), ParseBlockHeader(s).rest)
  {
    FieldsReencode(s);
    var f, s1 := ParseFields(s).value, ParseFields(s).rest;
    FirstWord(f);
    assert s[..HEADER_PREFIX_BYTES] == EncFields(f) && s[HEADER_PREFIX_BYTES..] == s1;
    var n, s2 := ParseCompactSize(s1).value, ParseCompactSize(s1).rest;
    var h := BlockHeader(f, Take(n, s2).value, ParseFatPointer(Take(n, s2).rest).value);
    FatPointerReencodes(Take(n, s2).rest);
    Regroup2(EncFields(f), EncCompactSize(n), h.solution);
  }

  /** The two readers accept the same bytes, up to the version and solution-length checks of the encoded one. */
  lemma ReadersAgree(s: Bytes)
    ensures ParseEncoded(s).Done? <==> ParseBlockHeader(s).Done? && Framed(ParseBlockHeader(s).value)
    ensures ParseEncoded(s).Done? <==>
      && ParseBlockHeader(s).Done? && Word(ParseBlockHeader(s).value.fields.version) >= 4
      && |ParseBlockHeader(s).value.solution| in {36, 1344}
    ensures ParseEncoded(s).Done? ==>
      && ParseEncoded(s) == Done(ToEncoded(ParseBlockHeader(s).value), ParseBlockHeader(s).rest)
      && s == ParseEncoded(s).value.bytes + ParseEncoded(s).rest
      && WellFramed(ParseEncoded(s).value)
  {
    if ParseBlockHeader(s).Done? {
      BlockHeaderReencodes(s);
    }
    if ParseBlockHeader(s).Done? && Framed(ParseBlockHeader(s).value) {
      EncodedOfParsed(ParseBlockHeader(s).value, ParseBlockHeader(s).rest);
    }
    if ParseEncoded(s).Done? {
      ParsedOfEncoded(s);
      BlockHeaderReencodes(s);
      var h := ParseBlockHeader(s).value;
      EncodedOfParsed(h, []);
      assert EncBlockHeader(h) + [] == EncBlockHeader(h);
    }
  }

  /** An accepted header holds exactly the bytes that were consumed. */
  lemma EncodedReencodes(s: Bytes)
    requires ParseEncoded(s).Done?
    ensures WellFramed(ParseEncoded(s).value)
    ensures s == ParseEncoded(s).value.bytes + ParseEncoded(s).rest
  {
    ReadersAgree(s);
  }

  lemma EncodedRoundTrip(e: EncodedPowHeader, t: Bytes)
    requires WellFramed(e)
    ensures ParseEncoded(e.bytes + t) == Done(e, t)
  {
    ReadersAgree(e.bytes);
    EncodedOfParsed(ParseBlockHeader(e.bytes).value, t);
  }

  /** An encoded header reports the fields, the solution and the hash of the parsed one. */
  lemma AccessorsAgree(sha: Sha256, h: BlockHeader)
    ensures var e := ToEncoded(h);
      && |e.bytes| >= HEADER_PREFIX_BYTES
      && Version(e) == Word(h.fields.version)
      && PrevBlockHash(e) == h.fields.prevBlock
      && e.solutionStart + e.solutionLen <= |e.bytes|
      && Solution(e) == h.solution
      && PowHash(sha, e) == BlockHash(sha, h) == sha(sha(EncBlockHeader(h)))
  {
    var e, f := ToEncoded(h), h.fields;
    var fat := EncFatPointer(h.fatPointer);
    FirstWord(f);
    assert e.bytes[..4] == EncFields(f)[..4];
    RegroupFields(f, []);
    assert EncFields(f) + [] == EncFields(f);
    assert e.bytes[4..36] == EncFields(f)[4..36] == f.prevBlock;
    var start := EncFields(f) + EncCompactSize(|h.solution|);
    Regroup2(EncFields(f), EncCompactSize(|h.solution|), h.solution);
    Regroup2(start, h.solution, fat);
  }

  lemma FramedHeaderShape(e: EncodedPowHeader)
    requires WellFramed(e)
    ensures |e.bytes| >= HEADER_PREFIX_BYTES && e.solutionStart + e.solutionLen <= |e.bytes|
    ensures Version(e) >= MIN_HEADER_VERSION
  {
    hide ParseEncoded, ParseBlockHeader;
    ReadersAgree(e.bytes);
    AccessorsAgree(_ => Zeros(32), ParseBlockHeader(e.bytes).value);
  }

  function BlockHash(sha: Sha256, h: BlockHeader): Bytes32 {
    Sha256d(sha, EncBlockHeader(h))
  }

  //////////////////////////////////////////////////////////////////////////////
  // Readers, writers and conversions
  //////////////////////////////////////////////////////////////////////////////

  method ReadFields(r: Reader) returns (res: Result<HeaderFields>)
    modifies r
    ensures Follows(ParseFields(old(r.rest)), res, r.rest)
  {
    var word :- r.ReadU32();
    var prevBlock :- r.ReadExact(32);
    var merkleRoot :- r.ReadExact(32);
    var finalSaplingRoot :- r.ReadExact(32);
    var time :- r.ReadU32();
    var bits :- r.ReadU32();
    var nonce :- r.ReadExact(32);
    res := Success(HeaderFields(Signed(word), prevBlock, merkleRoot, finalSaplingRoot, time, bits, nonce));
  }

  method ReadBlockHeader(r: Reader) returns (res: Result<BlockHeader>)
    modifies r
    ensures Follows(ParseBlockHeader(old(r.rest)), res, r.rest)
  {
    var fields :- ReadFields(r);
    var n :- r.ReadCompactSize();
    var solution :- r.ReadExact(n);
    var fatPointer :- ReadFatPointer(r);
    res := Success(BlockHeader(fields, solution, fatPointer));
  }

  method WriteFields(w: Writer, f: HeaderFields)
    modifies w
    ensures w.buf == old(w.buf) + EncFields(f)
  {
    w.WriteAll(LE(Word(f.version), 4));
    w.WriteAll(f.prevBlock);
    w.WriteAll(f.merkleRoot);
    w.WriteAll(f.finalSaplingRoot);
    w.WriteAll(LE(f.time, 4));
    w.WriteAll(LE(f.bits, 4));
    w.WriteAll(f.nonce);
    Regroup7(old(w.buf), LE(Word(f.version), 4), f.prevBlock, f.merkleRoot, f.finalSaplingRoot, LE(f.time, 4),
             LE(f.bits, 4), f.nonce);
    RegroupFields(f, []);
    assert f.nonce + [] == f.nonce && EncFields(f) + [] == EncFields(f);
  }

  method WriteBlockHeader(w: Writer, h: BlockHeader) returns (res: Result<()>)
    modifies w
    ensures res == if Fits(h.fatPointer) then Success(()) else Failure(InvalidData)
    ensures res.Success? ==> w.buf == old(w.buf) + EncBlockHeader(h)
  {
    WriteFields(w, h.fields);
    w.WriteCompactSize(|h.solution|);
    w.WriteAll(h.solution);
    var _ :- WriteFatPointer(w, h.fatPointer);
    var fields, size, fat := EncFields(h.fields), EncCompactSize(|h.solution|), EncFatPointer(h.fatPointer);
    Regroup3(old(w.buf) + fields, size, h.solution, fat);
    Regroup2(old(w.buf), fields, size + (h.solution + fat));
    Regroup2(size, h.solution, fat);
    Regroup2(fields, size + h.solution, fat);
    res := Success(());
  }

  /** Reads a header keeping its bytes; the bytes are rebuilt piece by piece as they are checked. */
  method ReadEncoded(r: Reader) returns (res: Result<EncodedPowHeader>)
    modifies r
    ensures Follows(ParseEncoded(old(r.rest)), res, r.rest)
  {
    hide ParseFatPointer, ParseCompactSize;
    var prefix :- r.ReadExact(HEADER_PREFIX_BYTES);
    var bytes := new Writer();
    bytes.WriteAll(prefix);
    assert bytes.buf == prefix;
    if UnLE(prefix[..4]) < MIN_HEADER_VERSION {
      return Failure(InvalidData);
    }
    var n :- r.ReadCompactSize();
    if n != SOLUTION_BYTES_MAINNET && n != SOLUTION_BYTES_REGTEST {
      return Failure(InvalidData);
    }
    bytes.WriteCompactSize(n);
    var start := |bytes.buf|;
    var solution :- r.ReadExact(n);
    bytes.WriteAll(solution);
    var _ :- CopyFatPointer(r, bytes);
    res := Success(EncodedPowHeader(bytes.buf, start, n));
  }

  method CopyFatPointer(r: Reader, w: Writer) returns (res: Result<FatPointer>)
    modifies r, w
    ensures Follows(ParseFatPointer(old(r.rest)), res, r.rest)
    ensures res.Success? ==> w.buf == old(w.buf) + EncFatPointer(res.value)
  {
    var fat :- ReadFatPointer(r);
    FatPointerReencodes(old(r.rest));
    var wrote := WriteFatPointer(w, fat);
    res := Success(fat);
  }

  /** `BlockHeader::from_data`: the hash of the encoding, or no hash where the source panics. */
  method HashBlockHeader(sha: Sha256, h: BlockHeader) returns (hash: Option<Bytes32>)
    ensures hash == if Fits(h.fatPointer) then Some(BlockHash(sha, h)) else None
  {
    var hasher := new Writer();
    var wrote := WriteBlockHeader(hasher, h);
    if wrote.Failure? {
      return None;
    }
    assert hasher.buf == EncBlockHeader(h);
    hash := Some(sha(sha(hasher.buf)));
  }

  /** The conversion to encoded form, which writes and reads back; `None` where it panics. */
  method EncodeHeader(h: BlockHeader) returns (e: Option<EncodedPowHeader>)
    ensures e.Some? <==> Framed(h)
    ensures e.Some? ==> e.value == ToEncoded(h) && WellFramed(e.value)
  {
    var w := new Writer();
    var wrote := WriteBlockHeader(w, h);
    if wrote.Failure? {
      return None;
    }
    var r := new Reader(w.buf);
    assert w.buf == EncBlockHeader(h) == EncBlockHeader(h) + [];
    OnlyFramedReadsBack(h);
    var res := ReadEncoded(r);
    e := if res.Success? then Some(res.value) else None;
  }

  lemma OnlyFramedReadsBack(h: BlockHeader)
    requires Fits(h.fatPointer)
    ensures ParseEncoded(EncBlockHeader(h)).Done? <==> Framed(h)
    ensures Framed(h) ==> ParseEncoded(EncBlockHeader(h)) == Done(ToEncoded(h), []) && WellFramed(ToEncoded(h))
  {
    assert EncBlockHeader(h) + [] == EncBlockHeader(h);
    if Framed(h) {
      EncodedOfParsed(h, []);
    } else if Writable(h) {
      ReadersAgree(EncBlockHeader(h));
      BlockHeaderRoundTrip(h, []);
    } else {
      var t := h.solution + EncFatPointer(h.fatPointer);
      Regroup3(EncFields(h.fields), EncCompactSize(|h.solution|), h.solution, EncFatPointer(h.fatPointer));
      Regroup2(EncFields(h.fields), EncCompactSize(|h.solution|), h.solution);
      LongSizeRefused(|h.solution|, t);
    }
  }

  /** The conversion back never fails on a header that was read. */
  method DecodeHeader(e: EncodedPowHeader) returns (h: BlockHeader)
    requires WellFramed(e)
    ensures Framed(h) && ToEncoded(h) == e
  {
    ReadersAgree(e.bytes);
    var r := new Reader(e.bytes);
    var res := ReadBlockHeader(r);
    h := res.value;
  }
}
