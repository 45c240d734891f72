/** Stateless checks on the headers a BFT block carries, and what passing them commits to. */
module HeaderChains {
  import opened ByteStrings
  import opened Io
  import opened FatPointers
  import opened PowHeaders
  import opened BftBlocks

  /** Equihash verification for fixed parameters: input, nonce, solution. */
  type Equihash = (Bytes, Bytes, Bytes) -> bool

  datatype HeaderCheck =
    | Passed
    | IncorrectConfirmationDepth(expected: nat, actual: nat)
    | UnknownHeaderVersion(index: nat, version: nat)
    | BrokenHeaderChain(index: nat)
    | InvalidEquihashSolution(index: nat)

  /** The slices the accessors take are in range. */
  predicate Shaped(h: EncodedPowHeader) {
    |h.bytes| >= HEADER_PREFIX_BYTES && h.solutionStart + h.solutionLen <= |h.bytes|
  }

  predicate KnownVersion(h: EncodedPowHeader)
    requires Shaped(h)
  {
    Version(h) >= MIN_HEADER_VERSION
  }

  predicate ValidPow(pow: Equihash, h: EncodedPowHeader)
    requires Shaped(h)
  {
    pow(h.bytes[..EQUIHASH_INPUT_BYTES], h.bytes[EQUIHASH_INPUT_BYTES..HEADER_PREFIX_BYTES], Solution(h))
  }

  /**
   * What Equihash is asked about a header: the six fields before the nonce as they are written, the
   * nonce, and the solution.
   */
  lemma PowInputIsFields(pow: Equihash, h: BlockHeader)
    ensures Shaped(ToEncoded(h))
    ensures var f := h.fields;
      ValidPow(pow, ToEncoded(h)) <==>
      pow(LE(Word(f.version), 4) + f.prevBlock + f.merkleRoot + f.finalSaplingRoot + LE(f.time, 4) + LE(f.bits, 4),
          f.nonce, h.solution)
  {
    var e, f := ToEncoded(h), h.fields;
    AccessorsAgree(_ => Zeros(32), h);
    var front := LE(Word(f.version), 4) + f.prevBlock + f.merkleRoot + f.finalSaplingRoot;
    var input := front + LE(f.time, 4) + LE(f.bits, 4);
    var times := LE(f.time, 4) + LE(f.bits, 4);
    hide LE, Solution, EncBlob, EncFatPointer;
    Regroup2(front, LE(f.time, 4), LE(f.bits, 4));
    Regroup2(front, times, f.nonce);
    assert EncFields(f) == input + f.nonce;
    var rest := EncBlob(h.solution) + EncFatPointer(h.fatPointer);
    Regroup2(EncFields(f), EncBlob(h.solution), EncFatPointer(h.fatPointer));
    assert e.bytes == input + f.nonce + rest;
    assert e.bytes[..108] == input && e.bytes[108..140] == f.nonce;
  }

  predicate LinksTo(sha: Sha256, h: EncodedPowHeader, before: EncodedPowHeader)
    requires Shaped(h)
  {
    PrevBlockHash(h) == PowHash(sha, before)
  }

  ghost predicate AllShaped(headers: seq<EncodedPowHeader>) {
    forall i :: 0 <= i < |headers| ==> Shaped(headers[i])
  }

  ghost predicate VersionsKnown(headers: seq<EncodedPowHeader>, n: nat)
    requires AllShaped(headers) && n <= |headers|
  {
    forall i :: 0 <= i < n ==> KnownVersion(headers[i])
  }

  ghost predicate Linked(sha: Sha256, headers: seq<EncodedPowHeader>, n: nat)
    requires AllShaped(headers) && n <= |headers|
  {
    forall i :: 0 < i < n ==> LinksTo(sha, headers[i], headers[i - 1])
  }

  ghost predicate PowValid(pow: Equihash, headers: seq<EncodedPowHeader>, n: nat)
    requires AllShaped(headers) && n <= |headers|
  {
    forall i :: 0 <= i < n ==> ValidPow(pow, headers[i])
  }

  ghost predicate Passes(sigma: nat, sha: Sha256, pow: Equihash, headers: seq<EncodedPowHeader>)
    requires AllShaped(headers)
  {
    && |headers| == sigma
    && VersionsKnown(headers, |headers|)
    && Linked(sha, headers, |headers|)
    && PowValid(pow, headers, |headers|)
  }

  /** Reports the first failing class of check, at the least index where it fails. */
  method CheckHeaders(sigma: nat, sha: Sha256, pow: Equihash, headers: seq<EncodedPowHeader>)
    returns (check: HeaderCheck)
    requires AllShaped(headers)
    ensures check.Passed? <==> Passes(sigma, sha, pow, headers)
    ensures check.IncorrectConfirmationDepth? <==> |headers| != sigma
    ensures check.IncorrectConfirmationDepth? ==> check.expected == sigma && check.actual == |headers|
    ensures check.UnknownHeaderVersion? ==>
      && check.index < |headers| == sigma && VersionsKnown(headers, check.index)
      && check.version == Version(headers[check.index]) < MIN_HEADER_VERSION
    ensures check.BrokenHeaderChain? ==>
      && 0 < check.index < |headers| == sigma && VersionsKnown(headers, |headers|)
      && Linked(sha, headers, check.index)
      && !LinksTo(sha, headers[check.index], headers[check.index - 1])
    ensures check.InvalidEquihashSolution? ==>
      && check.index < |headers| == sigma && VersionsKnown(headers, |headers|)
      && Linked(sha, headers, |headers|) && PowValid(pow, headers, check.index)
      && !ValidPow(pow, headers[check.index])
  {
    hide Version, PrevBlockHash, PowHash, Solution;
    if |headers| != sigma {
      return IncorrectConfirmationDepth(sigma, |headers|);
    }
    for index := 0 to |headers|
      invariant VersionsKnown(headers, index)
    {
      var version := Version(headers[index]);
      if version < MIN_HEADER_VERSION {
        return UnknownHeaderVersion(index, version);
      }
    }
    for index := 0 to |headers|
      invariant Linked(sha, headers, index)
    {
      if index > 0 && PrevBlockHash(headers[index]) != PowHash(sha, headers[index - 1]) {
        return BrokenHeaderChain(index);
      }
    }
    for index := 0 to |headers|
      invariant PowValid(pow, headers, index)
    {
      if !ValidPow(pow, headers[index]) {
        return InvalidEquihashSolution(index);
      }
    }
    check := Passed;
  }

  /** Headers that were read have every slice in range and a known version. */
  lemma ReadHeadersAreShaped(headers: seq<EncodedPowHeader>)
    requires AllFramed(headers)
    ensures AllShaped(headers) && VersionsKnown(headers, |headers|)
  {
    hide WellFramed, Version;
    forall i | 0 <= i < |headers| ensures Shaped(headers[i]) && KnownVersion(headers[i]) {
      FramedHeaderShape(headers[i]);
    }
  }

  //////////////////////////////////////////////////////////////////////////////
  // Commitment
  //////////////////////////////////////////////////////////////////////////////

  /** Two different strings with one double-SHA256 hash. */
  ghost predicate Sha256dCollision(sha: Sha256, a: Bytes, b: Bytes) {
    a != b && Sha256d(sha, a) == Sha256d(sha, b)
  }

  /** Linked lists of headers that end alike agree all the way down, or collide where they first part. */
  lemma {:induction false} ChainBinds(sha: Sha256, xs: seq<EncodedPowHeader>, ys: seq<EncodedPowHeader>, n: nat)
    requires AllShaped(xs) && AllShaped(ys) && 0 < n <= |xs| && n <= |ys|
    requires Linked(sha, xs, n) && Linked(sha, ys, n)
    requires xs[n - 1].bytes == ys[n - 1].bytes
    ensures (forall i :: 0 <= i < n ==> xs[i].bytes == ys[i].bytes)
         || (exists i :: 0 <= i < n - 1 && Sha256dCollision(sha, xs[i].bytes, ys[i].bytes)
                         && forall j :: i < j < n ==> xs[j].bytes == ys[j].bytes)
    decreases n
  {
    if n > 1 {
      assert LinksTo(sha, xs[n - 1], xs[n - 2]) && LinksTo(sha, ys[n - 1], ys[n - 2]);
      hide LinksTo, Sha256d;
      if xs[n - 2].bytes == ys[n - 2].bytes {
        ChainBinds(sha, xs, ys, n - 1);
      } else {
        assert Sha256dCollision(sha, xs[n - 2].bytes, ys[n - 2].bytes);
      }
    }
  }

  /**
   * Header lists that both pass under the same parameters and share their last header are one list,
   * or two of their headers at one position collide.
   */
  lemma CheckedHeadersBind(sigma: nat, sha: Sha256, pow: Equihash, xs: seq<EncodedPowHeader>, ys: seq<EncodedPowHeader>)
    requires AllFramed(xs) && AllFramed(ys) && AllShaped(xs) && AllShaped(ys)
    requires Passes(sigma, sha, pow, xs) && Passes(sigma, sha, pow, ys)
    requires sigma > 0 && xs[sigma - 1] == ys[sigma - 1]
    ensures xs == ys || exists i :: 0 <= i < sigma && Sha256dCollision(sha, xs[i].bytes, ys[i].bytes)
  {
    ChainBinds(sha, xs, ys, sigma);
    if forall i :: 0 <= i < sigma ==> xs[i].bytes == ys[i].bytes {
      forall i | 0 <= i < sigma ensures xs[i] == ys[i] {
        assert WellFramed(xs[i]) && WellFramed(ys[i]);
      }
    }
  }
}
