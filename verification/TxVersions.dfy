/** Transaction format versions, what each carries, and where each is valid. */
module TxVersions {
  import opened ByteStrings
  import opened Io
  import opened Schedules

  datatype TxVersion = PreOverwinter(number: u32) | V3 | V4 | V5 | V6 | VCrosslink

  const OVERWINTERED: int := 0x8000_0000

  function VersionNumber(v: TxVersion): u32 {
    match v
    case PreOverwinter(n) => n
    case V3 => 3
    case V4 => 4
    case V5 => 5
    case V6 => 6
    case VCrosslink => 7
  }

  /** The version number, with the top bit set by every later format. */
  function HeaderWord(v: TxVersion): u32 {
    match v
    case PreOverwinter(n) => n
    case _ => OVERWINTERED + VersionNumber(v) as int
  }

  function VersionGroupId(v: TxVersion): u32 {
    match v
    case PreOverwinter(_) => 0
    case V3 => 0x03C4_8270
    case V4 => 0x892F_2085
    case V5 => 0x26A7_270A
    case V6 => 0xD884_B698
    case VCrosslink => 0xFFFF_FFFE
  }

  predicate HasSprout(v: TxVersion) {
    match v
    case PreOverwinter(n) => n >= 2
    case _ => v.V3? || v.V4?
  }

  predicate HasOverwinter(v: TxVersion) {
    !v.PreOverwinter?
  }

  predicate HasSapling(v: TxVersion) {
    v.V4? || v.V5? || v.V6? || v.VCrosslink?
  }

  predicate HasOrchard(v: TxVersion) {
    v.V5? || v.V6? || v.VCrosslink?
  }

  predicate HasIronwood(v: TxVersion) {
    v.V6?
  }

  predicate HasCrosslink(v: TxVersion) {
    v.VCrosslink?
  }

  /** The formats that do not write their branch. */
  predicate Legacy(v: TxVersion) {
    v.PreOverwinter? || v.V3? || v.V4?
  }

  /** The suggested version is valid, and carries each pool exactly from the branch on that has it. */
  function SuggestedForBranch(b: BranchId): (v: TxVersion)
    ensures ValidInBranch(v, b)
    ensures HasOverwinter(v) <==> !b.SproutBranch?
    ensures HasSapling(v) <==> SaplingActive(b)
    ensures HasOrchard(v) <==> OrchardActive(b)
    ensures HasIronwood(v) <==> b.Nu6_3Branch?
    ensures !HasCrosslink(v)
  {
    match b
    case SproutBranch => PreOverwinter(2)
    case OverwinterBranch => V3
    case Nu5Branch => V5
    case Nu6Branch => V5
    case Nu6_1Branch => V5
    case Nu6_2Branch => V5
    case Nu6_3Branch => V6
    case _ => V4
  }

  predicate ValidInBranch(v: TxVersion, b: BranchId) {
    match v
    case PreOverwinter(_) => b.SproutBranch?
    case V3 => b.OverwinterBranch?
    case V4 => SaplingActive(b)
    case V5 => OrchardActive(b)
    case V6 => b.Nu6_3Branch?
    case VCrosslink => OrchardActive(b)
  }

  /**
   * A version with Sapling is valid exactly where all the pools it carries are active; one without is
   * valid in its own branch only.
   */
  lemma ValidWhereCarried(v: TxVersion, b: BranchId)
    ensures ValidInBranch(v, b) <==>
      if HasSapling(v) then
        SaplingActive(b) && (HasOrchard(v) ==> OrchardActive(b)) && (HasIronwood(v) ==> b.Nu6_3Branch?)
      else if HasOverwinter(v) then b.OverwinterBranch?
      else b.SproutBranch?
    ensures ValidInBranch(v, b) && HasSprout(v) ==> !OrchardActive(b) || v.V4?
  {
  }

  //////////////////////////////////////////////////////////////////////////////
  // Encoding and parsing
  //////////////////////////////////////////////////////////////////////////////

  function EncVersion(v: TxVersion): Bytes {
    LE(HeaderWord(v), 4) + (if v.PreOverwinter? then [] else LE(VersionGroupId(v), 4))
  }

  function KnownVersion(number: int, group: int): Option<TxVersion> {
    if number == 3 && group == 0x03C4_8270 then Some(V3)
    else if number == 4 && group == 0x892F_2085 then Some(V4)
    else if number == 5 && group == 0x26A7_270A then Some(V5)
    else if number == 6 && group == 0xD884_B698 then Some(V6)
    else if number == 7 && group == 0xFFFF_FFFE then Some(VCrosslink)
    else None
  }

  function ParseVersion(s: Bytes): Parsed<TxVersion> {
    var (header, s) :- ParseU32(s);
    var number := header % OVERWINTERED;
    if header / OVERWINTERED == 1 then
      var (group, s) :- ParseU32(s);
      (match KnownVersion(number, group)
       case Some(v) => Done(v, s)
       case None => Bad(InvalidData))
    else if number >= 1 then Done(PreOverwinter(number), s)
    else Bad(InvalidData)
  }

  predicate GoodVersion(v: TxVersion) {
    v.PreOverwinter? ==> 1 <= v.number < OVERWINTERED
  }

  lemma VersionRoundTrip(v: TxVersion, t: Bytes)
    requires GoodVersion(v)
    ensures ParseVersion(EncVersion(v) + t) == Done(v, t)
  {
    hide ParseU32, LE;
    var group := if v.PreOverwinter? then [] else LE(VersionGroupId(v), 4);
    Regroup2(LE(HeaderWord(v), 4), group, t);
    U32RoundTrip(HeaderWord(v), group + t);
    U32RoundTrip(VersionGroupId(v), t);
    assert [] + t == t;
  }

  lemma VersionReencodes(s: Bytes)
    requires ParseVersion(s).Done?
    ensures GoodVersion(ParseVersion(s).value)
    ensures s == EncVersion(ParseVersion(s).value) + ParseVersion(s).rest
  {
    hide ParseU32, LE;
    var v, t := ParseVersion(s).value, ParseVersion(s).rest;
    Regroup2(LE(HeaderWord(v), 4), if v.PreOverwinter? then [] else LE(VersionGroupId(v), 4), t);
    assert [] + t == t;
  }

  /** The two header words alone tell the versions apart. */
  lemma HeaderWordsDistinct(v: TxVersion, w: TxVersion)
    requires GoodVersion(v) && GoodVersion(w)
    ensures HeaderWord(v) == HeaderWord(w) ==> v == w
  {
  }

  method ReadVersion(r: Reader) returns (res: Result<TxVersion>)
    modifies r
    ensures Follows(ParseVersion(old(r.rest)), res, r.rest)
  {
    hide ParseU32;
    var header :- r.ReadU32();
    var number := header % OVERWINTERED;
    if header / OVERWINTERED == 1 {
      var group :- r.ReadU32();
      match KnownVersion(number, group) {
        case Some(v) =>
          res := Success(v);
        case None =>
          res := Failure(InvalidData);
      }
    } else if number >= 1 {
      res := Success(PreOverwinter(number));
    } else {
      res := Failure(InvalidData);
    }
  }

  method WriteVersion(w: Writer, v: TxVersion)
    modifies w
    ensures w.buf == old(w.buf) + EncVersion(v)
  {
    w.WriteAll(LE(HeaderWord(v), 4));
    if !v.PreOverwinter? {
      w.WriteAll(LE(VersionGroupId(v), 4));
      Regroup2(old(w.buf), LE(HeaderWord(v), 4), LE(VersionGroupId(v), 4));
    }
  }
}
