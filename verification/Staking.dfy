/** Staking actions on the wire. */
module Staking {
  import opened ByteStrings
  import opened Io
  import opened Values

  /** What every action starts with; nothing in consensus checks the signature. */
  datatype BondAuth = BondAuth(uniquePubkey: Bytes32, challenge: Bytes32, signature: Bytes64)

  /** The second challenge and the finalizer's own signature. */
  datatype FinalizerAuth = FinalizerAuth(challenge: Bytes32, signature: Bytes64)

  datatype StakingAction =
    | CreateNewDelegationBond(auth: BondAuth, targetFinalizer: Bytes32, amount: Zatoshis)
    | BeginDelegationUnbonding(auth: BondAuth)
    | WithdrawDelegationBond(auth: BondAuth, amount: Zatoshis)
    | RetargetDelegationBond(auth: BondAuth, targetFinalizer: Bytes32)
    | RegisterFinalizer(auth: BondAuth)
    | ConvertFinalizerReward(auth: BondAuth, thisFinalizer: Bytes32, amount: Zatoshis, second: FinalizerAuth)
    | UpdateFinalizerKey(auth: BondAuth, thisFinalizer: Bytes32, second: FinalizerAuth)

  const TAG_ABSENT: u8 := 0

  function Tag(a: StakingAction): (tag: u8)
    ensures 1 <= tag <= 7
  {
    match a
    case CreateNewDelegationBond(_, _, _) => 1
    case BeginDelegationUnbonding(_) => 2
    case WithdrawDelegationBond(_, _) => 3
    case RetargetDelegationBond(_, _) => 4
    case RegisterFinalizer(_) => 5
    case ConvertFinalizerReward(_, _, _, _) => 6
    case UpdateFinalizerKey(_, _, _) => 7
  }

  /** What the action moves out of (negative) or into the transaction. */
  function Contribution(a: Option<StakingAction>): ZatBalance {
    match a
    case Some(CreateNewDelegationBond(_, _, amount)) => 0 - amount as int
    case Some(WithdrawDelegationBond(_, amount)) => amount
    case _ => 0
  }

  //////////////////////////////////////////////////////////////////////////////
  // Encoding and parsing
  //////////////////////////////////////////////////////////////////////////////

  function EncBondAuth(a: BondAuth): Bytes {
    a.uniquePubkey + a.challenge + a.signature
  }

  function EncFinalizerAuth(a: FinalizerAuth): Bytes {
    a.challenge + a.signature
  }

  /** What follows the common fields. */
  function EncTail(a: StakingAction): Bytes {
    match a
    case CreateNewDelegationBond(_, target, amount) => target + LE(amount, 8)
    case BeginDelegationUnbonding(_) => []
    case WithdrawDelegationBond(_, amount) => LE(amount, 8)
    case RetargetDelegationBond(_, target) => target
    case RegisterFinalizer(_) => []
    case ConvertFinalizerReward(_, finalizer, amount, second) => finalizer + LE(amount, 8) + EncFinalizerAuth(second)
    case UpdateFinalizerKey(_, finalizer, second) => finalizer + EncFinalizerAuth(second)
  }

  function EncStaking(a: Option<StakingAction>): Bytes {
    match a
    case None => LE(TAG_ABSENT, 1)
    case Some(a) => LE(Tag(a), 1) + EncBondAuth(a.auth) + EncTail(a)
  }

  function ParseBondAuth(s: Bytes): Parsed<BondAuth> {
    var (uniquePubkey, s) :- Take(32, s);
    var (challenge, s) :- Take(32, s);
    var (signature, s) :- Take(64, s);
    Done(BondAuth(uniquePubkey, challenge, signature), s)
  }

  function ParseFinalizerAuth(s: Bytes): Parsed<FinalizerAuth> {
    var (challenge, s) :- Take(32, s);
    var (signature, s) :- Take(64, s);
    Done(FinalizerAuth(challenge, signature), s)
  }

  function ParseTail(tag: u8, auth: BondAuth, s: Bytes): (p: Parsed<StakingAction>)
    requires 1 <= tag <= 7
    ensures p.Done? ==> Tag(p.value) == tag && p.value.auth == auth
  {
    if tag == 1 then
      var (target, s) :- Take(32, s);
      var (amount, s) :- ParseZatoshis(s);
      Done(CreateNewDelegationBond(auth, target, amount), s)
    else if tag == 2 then
      Done(BeginDelegationUnbonding(auth), s)
    else if tag == 3 then
      var (amount, s) :- ParseZatoshis(s);
      Done(WithdrawDelegationBond(auth, amount), s)
    else if tag == 4 then
      var (target, s) :- Take(32, s);
      Done(RetargetDelegationBond(auth, target), s)
    else if tag == 5 then
      Done(RegisterFinalizer(auth), s)
    else if tag == 6 then
      var (finalizer, s) :- Take(32, s);
      var (amount, s) :- ParseZatoshis(s);
      var (second, s) :- ParseFinalizerAuth(s);
      Done(ConvertFinalizerReward(auth, finalizer, amount, second), s)
    else
      var (finalizer, s) :- Take(32, s);
      var (second, s) :- ParseFinalizerAuth(s);
      Done(UpdateFinalizerKey(auth, finalizer, second), s)
  }

  function ParseStaking(s: Bytes): Parsed<Option<StakingAction>> {
    var (tag, s) :- ParseU8(s);
    if tag == TAG_ABSENT then Done(None, s)
    else if tag > 7 then Bad(InvalidInput)
    else
      var (auth, s) :- ParseBondAuth(s);
      var (a, s) :- ParseTail(tag, auth, s);
      Done(Some(a), s)
  }

  lemma BondAuthRoundTrip(a: BondAuth, t: Bytes)
    ensures ParseBondAuth(EncBondAuth(a) + t) == Done(a, t)
  {
    Regroup3(a.uniquePubkey, a.challenge, a.signature, t);
  }

  lemma BondAuthReencodes(s: Bytes)
    requires ParseBondAuth(s).Done?
    ensures s == EncBondAuth(ParseBondAuth(s).value) + ParseBondAuth(s).rest
  {
    var a, t := ParseBondAuth(s).value, ParseBondAuth(s).rest;
    Regroup3(a.uniquePubkey, a.challenge, a.signature, t);
  }

  lemma FinalizerAuthRoundTrip(a: FinalizerAuth, t: Bytes)
    ensures ParseFinalizerAuth(EncFinalizerAuth(a) + t) == Done(a, t)
  {
    Regroup2(a.challenge, a.signature, t);
  }

  lemma FinalizerAuthReencodes(s: Bytes)
    requires ParseFinalizerAuth(s).Done?
    ensures s == EncFinalizerAuth(ParseFinalizerAuth(s).value) + ParseFinalizerAuth(s).rest
  {
    var a, t := ParseFinalizerAuth(s).value, ParseFinalizerAuth(s).rest;
    Regroup2(a.challenge, a.signature, t);
  }

  lemma TailRoundTrip(a: StakingAction, t: Bytes)
    ensures ParseTail(Tag(a), a.auth, EncTail(a) + t) == Done(a, t)
  {
    hide ParseZatoshis, ParseFinalizerAuth, EncFinalizerAuth, LE;
    match a
    case CreateNewDelegationBond(_, target, amount) =>
      Regroup2(target, LE(amount, 8), t);
      ZatoshisRoundTrip(amount, t);
    case WithdrawDelegationBond(_, amount) =>
      ZatoshisRoundTrip(amount, t);
    case ConvertFinalizerReward(_, finalizer, amount, second) =>
      Regroup3(finalizer, LE(amount, 8), EncFinalizerAuth(second), t);
      ZatoshisRoundTrip(amount, EncFinalizerAuth(second) + t);
      FinalizerAuthRoundTrip(second, t);
    case UpdateFinalizerKey(_, finalizer, second) =>
      Regroup2(finalizer, EncFinalizerAuth(second), t);
      FinalizerAuthRoundTrip(second, t);
    case BeginDelegationUnbonding(_) =>
      assert [] + t == t;
    case RegisterFinalizer(_) =>
      assert [] + t == t;
    case RetargetDelegationBond(_, _) =>
  }

  lemma TailReencodes(tag: u8, auth: BondAuth, s: Bytes)
    requires 1 <= tag <= 7 && ParseTail(tag, auth, s).Done?
    ensures s == EncTail(ParseTail(tag, auth, s).value) + ParseTail(tag, auth, s).rest
  {
    hide ParseZatoshis, ParseFinalizerAuth, EncFinalizerAuth, LE;
    var a, t := ParseTail(tag, auth, s).value, ParseTail(tag, auth, s).rest;
    match a
    case CreateNewDelegationBond(_, target, amount) =>
      Regroup2(target, LE(amount, 8), t);
    case ConvertFinalizerReward(_, finalizer, amount, second) =>
      FinalizerAuthReencodes(ParseZatoshis(s[32..]).rest);
      Regroup3(finalizer, LE(amount, 8), EncFinalizerAuth(second), t);
    case UpdateFinalizerKey(_, finalizer, second) =>
      FinalizerAuthReencodes(s[32..]);
      Regroup2(finalizer, EncFinalizerAuth(second), t);
    case BeginDelegationUnbonding(_) =>
      assert [] + t == t;
    case RegisterFinalizer(_) =>
      assert [] + t == t;
    case _ =>
  }

  lemma StakingRoundTrip(a: Option<StakingAction>, t: Bytes)
    ensures ParseStaking(EncStaking(a) + t) == Done(a, t)
  {
    hide ParseU8, ParseBondAuth, EncBondAuth, ParseTail, EncTail, LE;
    match a
    case None =>
      U8RoundTrip(TAG_ABSENT, t);
    case Some(a) =>
      Regroup3(LE(Tag(a), 1), EncBondAuth(a.auth), EncTail(a), t);
      U8RoundTrip(Tag(a), EncBondAuth(a.auth) + (EncTail(a) + t));
      BondAuthRoundTrip(a.auth, EncTail(a) + t);
      TailRoundTrip(a, t);
  }

  lemma StakingReencodes(s: Bytes)
    requires ParseStaking(s).Done?
    ensures s == EncStaking(ParseStaking(s).value) + ParseStaking(s).rest
  {
    hide ParseU8, ParseBondAuth, EncBondAuth, ParseTail, EncTail, LE;
    var tag, s1 := ParseU8(s).value, ParseU8(s).rest;
    if tag != TAG_ABSENT {
      var auth, s2 := ParseBondAuth(s1).value, ParseBondAuth(s1).rest;
      BondAuthReencodes(s1);
      TailReencodes(tag, auth, s2);
      var a, t := ParseTail(tag, auth, s2).value, ParseTail(tag, auth, s2).rest;
      Regroup3(LE(tag, 1), EncBondAuth(auth), EncTail(a), t);
    }
  }

  /** No two actions, present or absent, have the same bytes. */
  lemma StakingInjective(a: Option<StakingAction>, b: Option<StakingAction>)
    requires EncStaking(a) == EncStaking(b)
    ensures a == b
  {
    StakingRoundTrip(a, []);
    StakingRoundTrip(b, []);
  }

  //////////////////////////////////////////////////////////////////////////////
  // Reader and writer
  //////////////////////////////////////////////////////////////////////////////

  method ReadBondAuth(r: Reader) returns (res: Result<BondAuth>)
    modifies r
    ensures Follows(ParseBondAuth(old(r.rest)), res, r.rest)
  {
    var uniquePubkey :- r.ReadExact(32);
    var challenge :- r.ReadExact(32);
    var signature :- r.ReadExact(64);
    res := Success(BondAuth(uniquePubkey, challenge, signature));
  }

  method ReadFinalizerAuth(r: Reader) returns (res: Result<FinalizerAuth>)
    modifies r
    ensures Follows(ParseFinalizerAuth(old(r.rest)), res, r.rest)
  {
    var challenge :- r.ReadExact(32);
    var signature :- r.ReadExact(64);
    res := Success(FinalizerAuth(challenge, signature));
  }

  method ReadTail(r: Reader, tag: u8, auth: BondAuth) returns (res: Result<StakingAction>)
    requires 1 <= tag <= 7
    modifies r
    ensures Follows(ParseTail(tag, auth, old(r.rest)), res, r.rest)
  {
    hide ParseZatoshis, ParseFinalizerAuth;
    match tag {
      case 1 =>
        var target :- r.ReadExact(32);
        var amount :- ReadZatoshis(r);
        res := Success(CreateNewDelegationBond(auth, target, amount));
      case 2 =>
        res := Success(BeginDelegationUnbonding(auth));
      case 3 =>
        var amount :- ReadZatoshis(r);
        res := Success(WithdrawDelegationBond(auth, amount));
      case 4 =>
        var target :- r.ReadExact(32);
        res := Success(RetargetDelegationBond(auth, target));
      case 5 =>
        res := Success(RegisterFinalizer(auth));
      case 6 =>
        var finalizer :- r.ReadExact(32);
        var amount :- ReadZatoshis(r);
        var second :- ReadFinalizerAuth(r);
        res := Success(ConvertFinalizerReward(auth, finalizer, amount, second));
      case _ =>
        var finalizer :- r.ReadExact(32);
        var second :- ReadFinalizerAuth(r);
        res := Success(UpdateFinalizerKey(auth, finalizer, second));
    }
  }

  method ReadStaking(r: Reader) returns (res: Result<Option<StakingAction>>)
    modifies r
    ensures Follows(ParseStaking(old(r.rest)), res, r.rest)
  {
    hide ParseU8, ParseBondAuth, ParseTail;
    var tag :- r.ReadU8();
    if tag == TAG_ABSENT {
      return Success(None);
    }
    if tag > 7 {
      return Failure(InvalidInput);
    }
    var auth :- ReadBondAuth(r);
    var a :- ReadTail(r, tag, auth);
    res := Success(Some(a));
  }

  method WriteFinalizerAuth(w: Writer, a: FinalizerAuth)
    modifies w
    ensures w.buf == old(w.buf) + EncFinalizerAuth(a)
  {
    w.WriteAll(a.challenge);
    w.WriteAll(a.signature);
    Regroup2(old(w.buf), a.challenge, a.signature);
  }

  method WriteTail(w: Writer, a: StakingAction)
    modifies w
    ensures w.buf == old(w.buf) + EncTail(a)
  {
    hide EncFinalizerAuth, LE;
    match a {
      case CreateNewDelegationBond(_, target, amount) =>
        w.WriteAll(target);
        w.WriteAll(LE(amount, 8));
        Regroup2(old(w.buf), target, LE(amount, 8));
      case WithdrawDelegationBond(_, amount) =>
        w.WriteAll(LE(amount, 8));
      case RetargetDelegationBond(_, target) =>
        w.WriteAll(target);
      case ConvertFinalizerReward(_, finalizer, amount, second) =>
        w.WriteAll(finalizer);
        w.WriteAll(LE(amount, 8));
        WriteFinalizerAuth(w, second);
        Regroup3(old(w.buf), finalizer, LE(amount, 8), EncFinalizerAuth(second));
        Regroup2(finalizer, LE(amount, 8), EncFinalizerAuth(second));
      case UpdateFinalizerKey(_, finalizer, second) =>
        w.WriteAll(finalizer);
        WriteFinalizerAuth(w, second);
        Regroup2(old(w.buf), finalizer, EncFinalizerAuth(second));
      case BeginDelegationUnbonding(_) =>
      case RegisterFinalizer(_) =>
    }
  }

  method WriteStaking(w: Writer, a: Option<StakingAction>)
    modifies w
    ensures w.buf == old(w.buf) + EncStaking(a)
  {
    hide EncTail, LE;
    match a {
      case None =>
        w.WriteAll(LE(TAG_ABSENT, 1));
      case Some(a) =>
        w.WriteAll(LE(Tag(a), 1));
        w.WriteAll(a.auth.uniquePubkey);
        w.WriteAll(a.auth.challenge);
        w.WriteAll(a.auth.signature);
        WriteTail(w, a);
        Regroup5(old(w.buf), LE(Tag(a), 1), a.auth.uniquePubkey, a.auth.challenge, a.auth.signature, EncTail(a));
        Regroup4(a.auth.uniquePubkey, a.auth.challenge, a.auth.signature, EncTail(a), []);
        Regroup3(a.auth.uniquePubkey, a.auth.challenge, a.auth.signature, EncTail(a));
        Regroup2(LE(Tag(a), 1), EncBondAuth(a.auth), EncTail(a));
    }
  }
}
