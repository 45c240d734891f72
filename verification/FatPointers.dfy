/** Fat pointers: one vote template shared by many finalizer signatures. */
module FatPointers {
  import opened ByteStrings
  import opened Io
  import opened Votes

  const FAT_POINTER_PREFIX_BYTES: nat := 44

  datatype SigEntry = SigEntry(pubKey: Bytes32, signature: Bytes64)

  datatype FatPointer = FatPointer(
    blockHash: Bytes32, height: u32, round: Round, kind: VoteKind, signatures: seq<SigEntry>)

  datatype SignedVote = SignedVote(vote: Vote, signature: Bytes64)

  /** Single-signature verification: key, signature, message. */
  type Ed25519 = (Bytes32, Bytes64, Bytes) -> bool

  //////////////////////////////////////////////////////////////////////////////
  // Encoding
  //////////////////////////////////////////////////////////////////////////////

  function EncSig(e: SigEntry): Bytes {
    e.pubKey + e.signature
  }

  function ParseSig(s: Bytes): Parsed<SigEntry> {
    var (k, s) :- Take(32, s);
    var (g, s) :- Take(64, s);
    Done(SigEntry(k, g), s)
  }

  /** The signature count is 16 bits wide. */
  predicate Fits(fp: FatPointer) {
    |fp.signatures| <= 0xffff
  }

  function EncFatPointer(fp: FatPointer): Bytes {
    EncTemplate(fp.blockHash, fp.height, fp.kind, fp.round)
    + LE(|fp.signatures|, 2)
    + Concat(fp.signatures, EncSig)
  }

  function ParseFatPointer(s: Bytes): Parsed<FatPointer> {
    var (hash, s) :- Take(32, s);
    var (height, s) :- ParseHeight(s);
    var (kr, s) :- ParseRoundWord(s);
    var (count, s) :- ParseU16(s);
    var (signatures, s) :- Many([], count, s, ParseSig);
    Done(FatPointer(hash, height, kr.1, kr.0, signatures), s)
  }

  lemma SigsRoundTrip(xs: seq<SigEntry>, t: Bytes)
    ensures Many([], |xs|, Concat(xs, EncSig) + t, ParseSig) == Done(xs, t)
  {
    forall x, u: Bytes ensures ParseSig(EncSig(x) + u) == Done(x, u) {
      assert EncSig(x) + u == x.pubKey + (x.signature + u);
    }
    assert forall x :: RoundTrips(x, EncSig, ParseSig);
    ManyRoundTrip(xs, t, EncSig, ParseSig);
  }

  lemma SigsReencode(n: nat, s: Bytes)
    requires Many([], n, s, ParseSig).Done?
    ensures s == Concat(Many([], n, s, ParseSig).value, EncSig) + Many([], n, s, ParseSig).rest
  {
    forall u ensures Reencodes(u, EncSig, ParseSig) {
    }
    ManyReencodes([], n, s, EncSig, ParseSig);
  }

  lemma FatPointerRoundTrip(fp: FatPointer, t: Bytes)
    requires Fits(fp)
    ensures ParseFatPointer(EncFatPointer(fp) + t) == Done(fp, t)
  {
    var sigs := Concat(fp.signatures, EncSig) + t;
    var count := LE(|fp.signatures|, 2) + sigs;
    var word := LE(RoundWord(fp.kind, fp.round), 4) + count;
    Regroup3(EncTemplate(fp.blockHash, fp.height, fp.kind, fp.round), LE(|fp.signatures|, 2),
             Concat(fp.signatures, EncSig), t);
    Regroup3(fp.blockHash, LE(fp.height, 8), LE(RoundWord(fp.kind, fp.round), 4), count);
    HeightRoundTrip(fp.height, word);
    RoundWordRoundTrip(fp.kind, fp.round, count);
    U16RoundTrip(|fp.signatures|, sigs);
    SigsRoundTrip(fp.signatures, t);
  }

  /** Every accepted fat pointer re-encodes to exactly the bytes that were consumed. */
  lemma FatPointerReencodes(s: Bytes)
    requires ParseFatPointer(s).Done?
    ensures Fits(ParseFatPointer(s).value)
    ensures s == EncFatPointer(ParseFatPointer(s).value) + ParseFatPointer(s).rest
  {
    var fp, t := ParseFatPointer(s).value, ParseFatPointer(s).rest;
    var s1 := Take(32, s).rest;
    var s2 := ParseHeight(s1).rest;
    var s3 := ParseRoundWord(s2).rest;
    var s4 := ParseU16(s3).rest;
    SigsReencode(|fp.signatures|, s4);
    Regroup3(fp.blockHash, LE(fp.height, 8), LE(RoundWord(fp.kind, fp.round), 4), s3);
    Regroup3(EncTemplate(fp.blockHash, fp.height, fp.kind, fp.round), LE(|fp.signatures|, 2),
             Concat(fp.signatures, EncSig), t);
  }

  method ReadSig(r: Reader) returns (res: Result<SigEntry>)
    modifies r
    ensures Follows(ParseSig(old(r.rest)), res, r.rest)
  {
    var k :- r.ReadExact(32);
    var g :- r.ReadExact(64);
    res := Success(SigEntry(k, g));
  }

  method ReadSigs(r: Reader, count: nat) returns (res: Result<seq<SigEntry>>)
    modifies r
    ensures Follows(Many([], count, old(r.rest), ParseSig), res, r.rest)
  {
    var signatures := [];
    for i := 0 to count
      invariant Many([], count, old(r.rest), ParseSig) == Many(signatures, count - i, r.rest, ParseSig)
    {
      var e :- ReadSig(r);
      signatures := signatures + [e];
    }
    res := Success(signatures);
  }

  method ReadFatPointer(r: Reader) returns (res: Result<FatPointer>)
    modifies r
    ensures Follows(ParseFatPointer(old(r.rest)), res, r.rest)
  {
    var hash :- r.ReadExact(32);
    var height :- ReadHeight(r);
    var kr :- ReadRoundWord(r);
    var count :- r.ReadU16();
    var signatures :- ReadSigs(r, count);
    res := Success(FatPointer(hash, height, kr.1, kr.0, signatures));
  }

  method WriteFatPointer(w: Writer, fp: FatPointer) returns (res: Result<()>)
    modifies w
    ensures res == if Fits(fp) then Success(()) else Failure(InvalidData)
    ensures Fits(fp) ==> w.buf == old(w.buf) + EncFatPointer(fp)
    ensures !Fits(fp) ==> w.buf == old(w.buf) + EncFatPointer(fp)[..FAT_POINTER_PREFIX_BYTES]
  {
    hide LE;
    w.WriteAll(fp.blockHash);
    w.WriteAll(LE(fp.height, 8));
    w.WriteAll(LE(RoundWord(fp.kind, fp.round), 4));
    ghost var template := EncTemplate(fp.blockHash, fp.height, fp.kind, fp.round);
    Regroup3(old(w.buf), fp.blockHash, LE(fp.height, 8), LE(RoundWord(fp.kind, fp.round), 4));
    assert w.buf == old(w.buf) + template;
    if |fp.signatures| > 0xffff {
      return Failure(InvalidData);
    }
    w.WriteAll(LE(|fp.signatures|, 2));
    ghost var start := w.buf;
    for i := 0 to |fp.signatures|
      invariant w.buf == start + Concat(fp.signatures[..i], EncSig)
    {
      var e := fp.signatures[i];
      w.WriteAll(e.pubKey);
      w.WriteAll(e.signature);
      ConcatSnoc(fp.signatures[..i], e, EncSig);
      assert fp.signatures[..i] + [e] == fp.signatures[..i + 1];
      Regroup2(start + Concat(fp.signatures[..i], EncSig), e.pubKey, e.signature);
      Regroup2(start, Concat(fp.signatures[..i], EncSig), EncSig(e));
    }
    assert fp.signatures[..|fp.signatures|] == fp.signatures;
    Regroup3(old(w.buf), template, LE(|fp.signatures|, 2), Concat(fp.signatures, EncSig));
    Regroup2(template, LE(|fp.signatures|, 2), Concat(fp.signatures, EncSig));
    res := Success(());
  }

  //////////////////////////////////////////////////////////////////////////////
  // Signed votes
  //////////////////////////////////////////////////////////////////////////////

  /** The signed votes a fat pointer stands for; a zero block hash stands for Nil. */
  function Inflate(fp: FatPointer): (votes: seq<SignedVote>)
    ensures |votes| == |fp.signatures|
  {
    var value := if fp.blockHash == Zeros(32) then None else Some(fp.blockHash);
    seq(|fp.signatures|, i requires 0 <= i < |fp.signatures| =>
      var e := fp.signatures[i];
      SignedVote(Vote(e.pubKey, value, fp.height, fp.kind, fp.round), e.signature))
  }

  function NamespaceBytes(namespace: Option<Bytes32>): Bytes {
    match namespace
    case None => []
    case Some(n) => n
  }

  /** `SignedVote::verify`. */
  predicate Verify(ed: Ed25519, sv: SignedVote, namespace: Option<Bytes32>) {
    ed(sv.vote.validator, sv.signature, EncVote(sv.vote) + NamespaceBytes(namespace))
  }

  /** The message behind entry `i`: its key, then the first 44 bytes of the pointer's encoding. */
  function Message(fp: FatPointer, i: nat, namespace: Option<Bytes32>): Bytes
    requires i < |fp.signatures|
  {
    fp.signatures[i].pubKey + EncFatPointer(fp)[..FAT_POINTER_PREFIX_BYTES] + NamespaceBytes(namespace)
  }

  lemma InflatedVoteBytes(fp: FatPointer, i: nat)
    requires i < |fp.signatures|
    ensures EncVote(Inflate(fp)[i].vote) == fp.signatures[i].pubKey + EncFatPointer(fp)[..FAT_POINTER_PREFIX_BYTES]
    ensures Inflate(fp)[i].signature == fp.signatures[i].signature
    ensures Inflate(fp)[i].vote.value.None? <==> fp.blockHash == Zeros(32)
  {
  }

  /** Queues every inflated vote and verifies the batch, taken to be all of its members. */
  method VerifySignatures(fp: FatPointer, namespace: Option<Bytes32>, ed: Ed25519) returns (ok: bool)
    ensures ok <==> forall i :: 0 <= i < |fp.signatures| ==>
      ed(fp.signatures[i].pubKey, fp.signatures[i].signature, Message(fp, i, namespace))
    ensures ok <==> forall sv :: sv in Inflate(fp) ==> Verify(ed, sv, namespace)
  {
    hide EncVote, EncFatPointer;
    var votes := Inflate(fp);
    var batch: seq<(Bytes32, Bytes64, Bytes)> := [];
    for i := 0 to |votes|
      invariant |batch| == i
      invariant forall j :: 0 <= j < i ==>
        batch[j] == (fp.signatures[j].pubKey, fp.signatures[j].signature, Message(fp, j, namespace))
    {
      var msg := VoteToBytes(votes[i].vote);
      InflatedVoteBytes(fp, i);
      match namespace {
        case None =>
          assert msg[..] + [] == msg[..];
          batch := batch + [(votes[i].vote.validator, votes[i].signature, msg[..])];
        case Some(n) =>
          batch := batch + [(votes[i].vote.validator, votes[i].signature, msg[..] + n)];
      }
    }
    ok := forall i :: 0 <= i < |batch| ==> ed(batch[i].0, batch[i].1, batch[i].2);
    forall i | 0 <= i < |votes|
      ensures Verify(ed, votes[i], namespace) <==> ed(batch[i].0, batch[i].1, batch[i].2)
    {
      InflatedVoteBytes(fp, i);
    }
  }

  /** A signed message determines the key, the namespace and every template field of its pointer. */
  lemma MessageBinds(fp: FatPointer, i: nat, ns: Option<Bytes32>, fp': FatPointer, j: nat, ns': Option<Bytes32>)
    requires i < |fp.signatures| && j < |fp'.signatures|
    requires Message(fp, i, ns) == Message(fp', j, ns')
    ensures fp.signatures[i].pubKey == fp'.signatures[j].pubKey && ns == ns'
    ensures fp.(signatures := []) == fp'.(signatures := [])
  {
    var m, m' := Message(fp, i, ns), Message(fp', j, ns');
    assert m[..32] == fp.signatures[i].pubKey && m'[..32] == fp'.signatures[j].pubKey;
    assert m[32..76] == EncTemplate(fp.blockHash, fp.height, fp.kind, fp.round);
    assert m'[32..76] == EncTemplate(fp'.blockHash, fp'.height, fp'.kind, fp'.round);
    assert m[76..] == NamespaceBytes(ns) && m'[76..] == NamespaceBytes(ns');
    TemplateBinds(fp.blockHash, fp.height, fp.kind, fp.round, fp'.blockHash, fp'.height, fp'.kind, fp'.round);
  }
}
