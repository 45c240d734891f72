/** Votes and their 76-byte signing layout. */
module Votes {
  import opened ByteStrings
  import opened Io

  const VOTE_BYTES: nat := 76
  const COMMIT_FLAG: nat := 0x8000_0000

  /** A 31-bit round index. */
  type Round = r: int | 0 <= r < COMMIT_FLAG

  datatype VoteKind = Prevote | Precommit

  datatype Vote = Vote(validator: Bytes32, value: Option<Bytes32>, height: u32, kind: VoteKind, round: Round)

  //////////////////////////////////////////////////////////////////////////////
  // The packed kind and round, and the narrowed height
  //////////////////////////////////////////////////////////////////////////////

  function RoundWord(kind: VoteKind, round: Round): u32 {
    if kind == Precommit then round + COMMIT_FLAG else round
  }

  /** The top bit is the kind and the low 31 bits are the round. */
  function SplitRoundWord(word: u32): (kr: (VoteKind, Round))
    ensures RoundWord(kr.0, kr.1) == word
  {
    if word >= COMMIT_FLAG then (Precommit, word - COMMIT_FLAG) else (Prevote, word)
  }

  function ParseRoundWord(s: Bytes): (p: Parsed<(VoteKind, Round)>)
    ensures p.Done? ==> s == LE(RoundWord(p.value.0, p.value.1), 4) + p.rest
  {
    var (word, t) :- ParseU32(s);
    Done(SplitRoundWord(word), t)
  }

  lemma RoundWordRoundTrip(kind: VoteKind, round: Round, t: Bytes)
    ensures ParseRoundWord(LE(RoundWord(kind, round), 4) + t) == Done((kind, round), t)
  {
    U32RoundTrip(RoundWord(kind, round), t);
  }

  /** An 8-byte height that must fit in 32 bits. */
  function ParseHeight(s: Bytes): (p: Parsed<u32>)
    ensures p.Done? ==> s == LE(p.value, 8) + p.rest
  {
    var (h, t) :- ParseU64(s);
    if h > 0xffff_ffff then Bad(InvalidData) else Done(h as int, t)
  }

  lemma HeightRoundTrip(h: u32, t: Bytes)
    ensures ParseHeight(LE(h, 8) + t) == Done(h, t)
  {
    U64RoundTrip(h, t);
  }

  method ReadHeight(r: Reader) returns (res: Result<u32>)
    modifies r
    ensures Follows(ParseHeight(old(r.rest)), res, r.rest)
  {
    var h :- r.ReadU64();
    if h > 0xffff_ffff {
      return Failure(InvalidData);
    }
    res := Success(h as int);
  }

  method ReadRoundWord(r: Reader) returns (res: Result<(VoteKind, Round)>)
    modifies r
    ensures Follows(ParseRoundWord(old(r.rest)), res, r.rest)
  {
    var word :- r.ReadU32();
    res := Success(SplitRoundWord(word));
  }

  //////////////////////////////////////////////////////////////////////////////
  // The signing layout
  //////////////////////////////////////////////////////////////////////////////

  function ValueBytes(value: Option<Bytes32>): Bytes32 {
    match value
    case None => Zeros(32)
    case Some(h) => h
  }

  /** The bytes that follow the validator key; the same bytes begin a fat pointer. */
  function EncTemplate(hash: Bytes32, height: u32, kind: VoteKind, round: Round): (b: Bytes)
    ensures |b| == 44
  {
    hash + LE(height, 8) + LE(RoundWord(kind, round), 4)
  }

  function EncVote(v: Vote): (b: Bytes)
    ensures |b| == VOTE_BYTES
  {
    v.validator + EncTemplate(ValueBytes(v.value), v.height, v.kind, v.round)
  }

  function ParseVote(s: Bytes): Parsed<Vote> {
    var (validator, s) :- Take(32, s);
    var (value, s) :- Take(32, s);
    var (height, s) :- ParseHeight(s);
    var (kr, s) :- ParseRoundWord(s);
    Done(Vote(validator, if value == Zeros(32) then None else Some(value), height, kr.0, kr.1), s)
  }

  /** A vote survives its signing layout unless it names the zero hash, which reads back as Nil. */
  lemma VoteRoundTrip(v: Vote)
    ensures ParseVote(EncVote(v)).Done? && ParseVote(EncVote(v)).rest == []
    ensures ParseVote(EncVote(v)).value == v <==> v.value != Some(Zeros(32))
  {
    var word := LE(RoundWord(v.kind, v.round), 4);
    Regroup3(ValueBytes(v.value), LE(v.height, 8), word, []);
    assert EncVote(v) == v.validator + (EncTemplate(ValueBytes(v.value), v.height, v.kind, v.round) + []);
    HeightRoundTrip(v.height, word + []);
    RoundWordRoundTrip(v.kind, v.round, []);
  }

  lemma VoteReencodes(s: Bytes)
    ensures ParseVote(s).Done? ==> s == EncVote(ParseVote(s).value) + ParseVote(s).rest
  {
    var p := ParseVote(s);
    if p.Done? {
      var s1 := Take(32, s).rest;
      var s2 := Take(32, s1).rest;
      var s3 := ParseHeight(s2).rest;
      var v := p.value;
      assert ValueBytes(v.value) == Take(32, s1).value;
      var height, word := LE(v.height, 8), LE(RoundWord(v.kind, v.round), 4);
      Regroup3(ValueBytes(v.value), height, word, p.rest);
      Regroup2(v.validator, EncTemplate(ValueBytes(v.value), v.height, v.kind, v.round), p.rest);
    }
  }

  /** Equal signing bytes come from votes for the same value, counting the zero hash as Nil. */
  lemma VoteBytesBind(v: Vote, w: Vote)
    requires EncVote(v) == EncVote(w)
    ensures v.(value := None) == w.(value := None) && ValueBytes(v.value) == ValueBytes(w.value)
  {
    TemplateBinds(ValueBytes(v.value), v.height, v.kind, v.round, ValueBytes(w.value), w.height, w.kind, w.round);
    assert EncVote(v)[..32] == v.validator && EncVote(w)[..32] == w.validator;
    assert EncVote(v)[32..] == EncTemplate(ValueBytes(v.value), v.height, v.kind, v.round);
    assert EncVote(w)[32..] == EncTemplate(ValueBytes(w.value), w.height, w.kind, w.round);
  }

  lemma TemplateBinds(hash: Bytes32, height: u32, kind: VoteKind, round: Round,
                      hash': Bytes32, height': u32, kind': VoteKind, round': Round)
    ensures EncTemplate(hash, height, kind, round) == EncTemplate(hash', height', kind', round') <==>
            hash == hash' && height == height' && kind == kind' && round == round'
  {
    var a, b := EncTemplate(hash, height, kind, round), EncTemplate(hash', height', kind', round');
    if a == b {
      assert a[..32] == hash && b[..32] == hash';
      assert a[32..40] == LE(height, 8) && b[32..40] == LE(height', 8);
      assert a[40..] == LE(RoundWord(kind, round), 4) && b[40..] == LE(RoundWord(kind', round'), 4);
      HeightRoundTrip(height, []);
      HeightRoundTrip(height', []);
      RoundWordRoundTrip(kind, round, []);
      RoundWordRoundTrip(kind', round', []);
    }
  }

  method CopyFromSlice(buf: array<byte>, at: nat, src: Bytes)
    requires at + |src| <= buf.Length
    modifies buf
    ensures buf[..] == old(buf[..at]) + src + old(buf[at + |src|..])
  {
    forall i | 0 <= i < |src| {
      buf[at + i] := src[i];
    }
  }

  method VoteToBytes(v: Vote) returns (buf: array<byte>)
    ensures fresh(buf) && buf[..] == EncVote(v)
  {
    buf := new byte[VOTE_BYTES](_ => 0);
    CopyFromSlice(buf, 0, v.validator);
    if v.value.Some? {
      CopyFromSlice(buf, 32, v.value.value);
    }
    assert buf[..64] == v.validator + ValueBytes(v.value);
    CopyFromSlice(buf, 64, LE(v.height, 8));
    CopyFromSlice(buf, 72, LE(RoundWord(v.kind, v.round), 4));
  }

  method VoteFromBytes(layout: Bytes) returns (res: Result<Vote>)
    requires |layout| == VOTE_BYTES
    ensures Follows(ParseVote(layout), res, [])
  {
    var cursor := new Reader(layout);
    // The buffer holds 76 bytes, so only the height can be refused.
    var validator := cursor.ReadExact(32);
    var bytes := cursor.ReadExact(32);
    var height :- ReadHeight(cursor);
    var kr := ReadRoundWord(cursor);
    var value := if bytes.value == Zeros(32) then None else Some(bytes.value);
    res := Success(Vote(validator.value, value, height, kr.value.0, kr.value.1));
  }
}
