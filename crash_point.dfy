/** The provably fair crash-point generator.

    A round's crash point is derived from a server seed (random bytes,
    base64-encoded, whose SHA-256 is published before the round) and a client
    seed: the game hash is SHA-256 of the two seeds concatenated, its first
    byte n (two hex digits) gives the random value n/255, and the raw crash
    point is 1 / (1 - n/255) clamped to [1, MAX_CRASH_POINT] and rounded to
    two places; the house edge is then taken off and the result rounded
    again. All crash points are in hundredths. SHA-256 and base64 are
    uninterpreted function values. */
module CrashPoint {

  import opened Common
  import opened Errors
  import Money
  import Text

  predicate IsLowerHex(c: char)
  {
    '0' <= c <= '9' || 'a' <= c <= 'f'
  }

  /** A hex-encoded SHA-256 digest: 64 lower-case hex digits. */
  type HexDigest = s: string | |s| == 64 && forall i :: 0 <= i < |s| ==> IsLowerHex(s[i])
    witness seq(64, _ => '0')

  type byte = bv8

  /** A fraction num/den, such as the house edge. */
  datatype Fraction = Fraction(num: int, den: Money.Positive)

  /** The game configuration the generator reads: the largest crash point
      (in hundredths) and the house edge. */
  datatype GeneratorConfig = GeneratorConfig(maxCrashPoint: int, houseEdge: Fraction)

  /** The generator's state: five fields that are null until computed. */
  datatype MultiplierInfo = MultiplierInfo(
    serverSeed: Option<string>,
    hashedServerSeed: Option<HexDigest>,
    gameHash: Option<HexDigest>,
    rawCrashPoint: Option<int>,
    finalCrashPoint: Option<int>)

  /** The state of a fresh generator and of one that was reset. */
  function EmptyMultiplierInfo(): (m: MultiplierInfo)
    ensures m.serverSeed.None? && m.hashedServerSeed.None? && m.gameHash.None?
    ensures m.rawCrashPoint.None? && m.finalCrashPoint.None?
  {
    MultiplierInfo(None, None, None, None, None)
  }

  function HexValue(c: char): (v: nat)
    requires IsLowerHex(c)
    ensures v < 16
  {
    if c <= '9' then c as int - '0' as int else c as int - 'a' as int + 10
  }

  /** `parseInt(hash.substring(0, 2), 16)`: the first byte of the digest. The
      random value is this over 255, so it lies in [0, 1]. */
  function HashPrefixValue(h: HexDigest): (n: nat)
    ensures n <= 255
  {
    16 * HexValue(h[0]) + HexValue(h[1])
  }

  /** The raw crash point for the byte n: min(MAX, max(1, 255 / (255 - n)))
      to two places. The quotient is infinite for n = 255 and at most 1 only
      for n = 0; MAX is a whole number of hundredths, so choosing it or 1 needs
      no rounding. */
  function RawCrashPoint(n: nat, maxCrashPoint: int): (r: int)
    requires n <= 255
    ensures n == 255 ==> r == maxCrashPoint
    ensures n == 0 && maxCrashPoint >= 100 ==> r == 100
    ensures n < 255 && maxCrashPoint * (255 - n) <= 25500 ==> r == maxCrashPoint
    ensures n > 0 && 25500 < maxCrashPoint * (255 - n) ==>
      0 - (255 - n) < 2 * (r * (255 - n) - 25500) <= 255 - n
  {
    if n == 255 then maxCrashPoint
    else
      var d := 255 - n;
      if 25500 <= 100 * d then (if maxCrashPoint <= 100 then maxCrashPoint else 100)
      else if maxCrashPoint * d <= 25500 then maxCrashPoint
      else Money.Round(25500, d)
  }

  /** The final crash point: raw * (1 - HOUSE_EDGE) to two places. */
  function FinalCrashPoint(raw: int, houseEdge: Fraction): (r: int)
    ensures var scaled := raw * (houseEdge.den - houseEdge.num);
      scaled >= 0 ==> 0 - houseEdge.den < 2 * (r * houseEdge.den - scaled) <= houseEdge.den
  {
    Money.Round(raw * (houseEdge.den - houseEdge.num), houseEdge.den)
  }

  datatype CrashPoints = CrashPoints(raw: int, final: int)

  /** Both crash points a game hash determines. */
  function CrashPointsOfHash(config: GeneratorConfig, gameHash: HexDigest): (p: CrashPoints)
    ensures p.final == FinalCrashPoint(p.raw, config.houseEdge)
    ensures p.raw == RawCrashPoint(HashPrefixValue(gameHash), config.maxCrashPoint)
  {
    var raw := RawCrashPoint(HashPrefixValue(gameHash), config.maxCrashPoint);
    CrashPoints(raw, FinalCrashPoint(raw, config.houseEdge))
  }

  /** What anybody can recompute once the server seed is revealed. */
  function CrashPointsFromSeeds(sha256: string -> HexDigest, config: GeneratorConfig,
                                serverSeed: string, clientSeed: string): (p: CrashPoints)
  {
    CrashPointsOfHash(config, sha256(serverSeed + clientSeed))
  }

  /** A player's check of a finished round: the revealed server seed hashes
      to the hash published before the round, the game hash is the hash of
      the seeds, and the announced crash point is the one the hash gives. */
  predicate VerifyRound(sha256: string -> HexDigest, config: GeneratorConfig,
                        serverSeed: string, hashedServerSeed: HexDigest, clientSeed: string,
                        gameHash: HexDigest, finalCrashPoint: int)
  {
    && sha256(serverSeed) == hashedServerSeed
    && sha256(serverSeed + clientSeed) == gameHash
    && CrashPointsOfHash(config, gameHash).final == finalCrashPoint
  }

  /** With MAX at least 1, the raw crash point lies in [1, MAX]. */
  lemma {:induction false} RawCrashPointInRange(n: nat, maxCrashPoint: int)
    requires n <= 255 && maxCrashPoint >= 100
    ensures 100 <= RawCrashPoint(n, maxCrashPoint) <= maxCrashPoint
  {
    if 0 < n < 255 {
      var d := 255 - n;
      if 25500 < maxCrashPoint * d {
        Money.RoundMonotone(100, 1, 25500, d);
        Money.RoundWhole(100, 1);
        Money.RoundMonotone(25500, d, maxCrashPoint, 1);
        Money.RoundWhole(maxCrashPoint, 1);
      }
    }
  }

  /** A larger first byte never gives a smaller raw crash point. */
  lemma {:induction false} RawCrashPointMonotone(n1: nat, n2: nat, maxCrashPoint: int)
    requires n1 <= n2 <= 255
    ensures RawCrashPoint(n1, maxCrashPoint) <= RawCrashPoint(n2, maxCrashPoint)
  {
    if maxCrashPoint < 100 {
      RawCrashPointBelowOne(n1, maxCrashPoint);
      RawCrashPointBelowOne(n2, maxCrashPoint);
    } else {
      RawCrashPointInRange(n1, maxCrashPoint);
      RawCrashPointInRange(n2, maxCrashPoint);
      if 0 < n1 && n2 < 255 {
        var d1, d2 := 255 - n1, 255 - n2;
        Money.MulMonotone(d2, d1, maxCrashPoint);
        assert maxCrashPoint * d2 <= maxCrashPoint * d1;
        if 25500 < maxCrashPoint * d2 {
          Money.RoundMonotone(25500, d1, 25500, d2);
        }
      }
    }
  }

  // With MAX below 1 the clamp always yields MAX.
  lemma RawCrashPointBelowOne(n: nat, maxCrashPoint: int)
    requires n <= 255 && maxCrashPoint < 100
    ensures RawCrashPoint(n, maxCrashPoint) == maxCrashPoint
  {
    if 0 < n < 255 && maxCrashPoint > 0 {
      Money.MulMonotone(maxCrashPoint, 100, 255 - n);
    }
  }

  /** With 0 <= HOUSE_EDGE <= 1 the final crash point never exceeds the raw one. */
  lemma {:induction false} FinalAtMostRaw(raw: nat, houseEdge: Fraction)
    requires 0 <= houseEdge.num <= houseEdge.den
    ensures 0 <= FinalCrashPoint(raw, houseEdge) <= raw
  {
    var e := houseEdge;
    Money.MulMonotone(e.den - e.num, e.den, raw);
    assert raw * (e.den - e.num) <= raw * e.den;
    Money.RoundMonotone(raw * (e.den - e.num), e.den, raw, 1);
    Money.RoundWhole(raw, 1);
  }

  /** The final crash point is not clamped back to 1: the first byte 0 with
      a one-percent house edge gives 0.99. */
  lemma {:induction false} FinalNotReclamped(maxCrashPoint: int)
    requires maxCrashPoint >= 100
    ensures RawCrashPoint(0, maxCrashPoint) == 100
    ensures FinalCrashPoint(RawCrashPoint(0, maxCrashPoint), Fraction(1, 100)) == 99
  {
    Money.RoundWhole(99, 100);
  }

  /** A first byte of 0 or 1 gives the raw crash point 1.00: 255/254 is
      still below 1.005. */
  lemma {:induction false} LowByteGivesOne(n: nat, maxCrashPoint: int)
    requires n <= 1 && maxCrashPoint >= 100
    ensures RawCrashPoint(n, maxCrashPoint) == 100
  {
    var r := RawCrashPoint(n, maxCrashPoint);
    if n == 1 && maxCrashPoint > 100 {
      Money.MulMonotone(101, maxCrashPoint, 254);
      assert 0 - 254 < 2 * (r * 254 - 25500) <= 254;
    }
  }

  /** A house edge above half a percent takes the crash point 1.00 below 1.00. */
  lemma {:induction false} EdgeTakesOneBelowOne(houseEdge: Fraction)
    requires 0 <= houseEdge.num <= houseEdge.den && 200 * houseEdge.num > houseEdge.den
    ensures FinalCrashPoint(100, houseEdge) < 100
  {
    var e := houseEdge;
    var f := FinalCrashPoint(100, e);
    assert 2 * (f * e.den - 100 * (e.den - e.num)) <= e.den;
    assert f * e.den < 100 * e.den;
    if f >= 100 {
      Money.MulMonotone(100, f, e.den);
    }
  }

  /** The round trip: the revealed seeds verify the announced round, and no
      other crash point passes the check. */
  lemma VerificationRoundTrip(sha256: string -> HexDigest, config: GeneratorConfig,
                              serverSeed: string, clientSeed: string, claimed: int)
    ensures VerifyRound(sha256, config, serverSeed, sha256(serverSeed), clientSeed,
                        sha256(serverSeed + clientSeed),
                        CrashPointsFromSeeds(sha256, config, serverSeed, clientSeed).final)
    ensures VerifyRound(sha256, config, serverSeed, sha256(serverSeed), clientSeed,
                        sha256(serverSeed + clientSeed), claimed)
            <==> claimed == CrashPointsFromSeeds(sha256, config, serverSeed, clientSeed).final
  {
  }

  /** The generator, holding the five nullable fields of the current round. */
  class MultiplierGenerator {
    const sha256: string -> HexDigest
    const base64: seq<byte> -> string
    const config: GeneratorConfig
    var multiplierData: MultiplierInfo

    constructor (sha256: string -> HexDigest, base64: seq<byte> -> string, config: GeneratorConfig)
      ensures this.sha256 == sha256 && this.base64 == base64 && this.config == config
      ensures multiplierData == EmptyMultiplierInfo()
    {
      this.sha256 := sha256;
      this.base64 := base64;
      this.config := config;
      multiplierData := EmptyMultiplierInfo();
    }

    /** A new server seed from 33 random bytes, and its hash. Only these two
        fields change. */
    method GenerateServerSeed(randomBytes: seq<byte>)
      returns (serverSeed: string, hashedServerSeed: HexDigest)
      requires |randomBytes| == 33
      modifies this
      ensures serverSeed == base64(randomBytes) && hashedServerSeed == sha256(serverSeed)
      ensures multiplierData == old(multiplierData).(serverSeed := Some(serverSeed),
                                                     hashedServerSeed := Some(hashedServerSeed))
    {
      serverSeed := base64(randomBytes);
      hashedServerSeed := sha256(serverSeed);
      multiplierData := multiplierData.(serverSeed := Some(serverSeed),
                                        hashedServerSeed := Some(hashedServerSeed));
    }

    /** The game hash of the server seed followed by the client seed. A blank
        client seed is refused first, then a missing or empty server seed;
        on success only the game hash changes. */
    method GenerateGameHash(clientSeed: string) returns (r: Result<HexDigest>)
      modifies this
      ensures Text.IsBlank(clientSeed) ==>
        r == Failure(WithDetails(GameError, "Client seed was not provided"))
      ensures !Text.IsBlank(clientSeed) && old(multiplierData.serverSeed) in {None, Some("")} ==>
        r == Failure(WithDetails(GameError, "Server seed must be generated before game hash"))
      ensures r.Failure? ==> multiplierData == old(multiplierData)
      ensures r.Success? <==> !Text.IsBlank(clientSeed) && old(multiplierData.serverSeed) !in {None, Some("")}
      ensures r.Success? ==>
        && r.value == sha256(old(multiplierData.serverSeed).value + clientSeed)
        && multiplierData == old(multiplierData).(gameHash := Some(r.value))
    {
      if Text.IsBlank(clientSeed) {
        return Failure(WithDetails(GameError, "Client seed was not provided"));
      }
      if multiplierData.serverSeed.None? || multiplierData.serverSeed.value == "" {
        return Failure(WithDetails(GameError, "Server seed must be generated before game hash"));
      }
      var gameHash := sha256(multiplierData.serverSeed.value + clientSeed);
      multiplierData := multiplierData.(gameHash := Some(gameHash));
      return Success(gameHash);
    }

    /** The crash points of the stored game hash, which the caller must have
        generated; only the two crash-point fields change. */
    method CalculateCrashPoint() returns (finalCrashPoint: int)
      requires multiplierData.gameHash.Some?
      modifies this
      ensures var p := CrashPointsOfHash(config, old(multiplierData.gameHash.value));
        && finalCrashPoint == p.final
        && multiplierData == old(multiplierData).(rawCrashPoint := Some(p.raw),
                                                  finalCrashPoint := Some(p.final))
    {
      var n := HashPrefixValue(multiplierData.gameHash.value);
      var rawCrashPoint := RawCrashPoint(n, config.maxCrashPoint);
      finalCrashPoint := FinalCrashPoint(rawCrashPoint, config.houseEdge);
      multiplierData := multiplierData.(rawCrashPoint := Some(rawCrashPoint),
                                        finalCrashPoint := Some(finalCrashPoint));
    }

    /** All five fields become null again. */
    method ResetMultiplierData()
      modifies this
      ensures multiplierData == EmptyMultiplierInfo()
    {
      multiplierData := EmptyMultiplierInfo();
    }
  }
}
