/** The round state machine.

    A fresh round is BETTING. Starting it makes it PREPARING: a server seed
    is generated and its hash broadcast, the client seed is fixed, the game
    hash and crash point are computed and, when bets were placed, the round's
    analytics record is saved (with retries, refunding everyone when saving
    keeps failing). The round then runs: each tick grows the multiplier by
    0.35 percent until it reaches the crash point, when the round is CRASHED,
    its remaining active bets are busted, a new BETTING round replaces it and
    a countdown of four seconds, ticking every tenth, starts the next one.

    Timers are explicit tick methods; socket broadcasts are appended to a
    log; the new round's uuid, the random seed bytes and the database
    faults of each save attempt are parameters. */
module Session {

  import opened Common
  import opened Errors
  import Money
  import Text
  import opened SessionAnalytics
  import CrashPoint
  import opened Store
  import opened Refunds

  const MAX_RETRIES: nat := 3
  const MAXIMUM_CLIENT_SEED_TO_USE: nat := 3
  /** Time to the next round in hundredths of a second, and the countdown step. */
  const TIME_TO_NEXT_SESSION: int := 400
  const COUNTDOWN_STEP: int := 10
  const DEFAULT_CLIENT_SEED := "family"
  const GAME_ERROR_MESSAGE := "Something went wrong on our end. We're working on fixing it."

  const MULTIPLIER_COUNT_UP := "multiplierCountUp"
  const NEXT_GAME_COUNT_DOWN := "nextGameCountDown"
  const NEXT_GAME_DELAY := "nextGameDelay"

  datatype SessionData = SessionData(
    sessionId: string,
    clientSeed: string,
    clientSeedDetails: seq<ClientSeedDetails>,
    gamePhase: GamePhase,
    bets: seq<BetInMemory>,
    totalBetAmount: int,
    totalPlayers: int,
    currentMultiplier: Money.Ratio)

  /** A fresh round: BETTING, multiplier 1, no bets and no client seed. */
  function InitializeSessionData(sessionId: string): (d: SessionData)
    ensures d.sessionId == sessionId && d.gamePhase == BETTING
    ensures d.bets == [] && d.clientSeedDetails == [] && d.clientSeed == ""
    ensures d.currentMultiplier.num == d.currentMultiplier.den
    ensures d.totalBetAmount == 0 && d.totalPlayers == 0
  {
    SessionData(sessionId, "", [], BETTING, [], 0, 0, Money.Ratio(1, 1))
  }

  /** The entry of the previous-rounds history a crash produces. */
  datatype PreviousMultiplier = PreviousMultiplier(finalMultiplier: int, sessionId: string)

  /** What the server broadcasts to every connected client. */
  datatype Broadcast =
    | PhasePreparing
    | HashedServerSeed(hash: string)
    | CurrentMultiplier(gamePhase: GamePhase, currentMultiplier: Money.Ratio, hashedServerSeed: Option<string>)
    | PhaseCrashed(gamePhase: GamePhase, crashedMultiplierInfo: PreviousMultiplier)
    | NextGameCountDown(gamePhase: GamePhase, timeToNextSession: int)
    | GameErrorBroadcast(errorMessage: string)

  /** A scheduler entry: null, a live timer, or a cleared timer whose handle
      is still stored. */
  datatype Slot = Empty | Armed | Stopped

  /** `clearInterval` on the entry: the handle stays, the timer stops. */
  function Stop(s: Slot): Slot
  {
    if s == Empty then Empty else Stopped
  }

  /** Every entry nulled. */
  function ClearedSlots(m: map<string, Slot>): (r: map<string, Slot>)
    ensures r.Keys == m.Keys && forall k :: k in r ==> r[k] == Empty
  {
    map k | k in m :: Empty
  }

  function SumStakes(bets: seq<BetInMemory>): int
  {
    if bets == [] then 0 else SumStakes(bets[..|bets| - 1]) + bets[|bets| - 1].stake
  }

  /** The client seed the round's hash uses: the accumulated one only when
      the round has bets and seed contributions. */
  function ChosenClientSeed(d: SessionData): (seed: string)
    ensures seed == d.clientSeed || seed == DEFAULT_CLIENT_SEED
    ensures |d.bets| == 0 || |d.clientSeedDetails| == 0 ==> !Text.IsBlank(seed)
  {
    if |d.bets| > 0 && |d.clientSeedDetails| > 0 then d.clientSeed
    else
      assert !Text.IsWhitespace(DEFAULT_CLIENT_SEED[0]);
      DEFAULT_CLIENT_SEED
  }

  function DigestText(h: Option<CrashPoint.HexDigest>): Option<string>
  {
    match h
    case None => None
    case Some(v) => Some(v)
  }

  /** The analytics document as the code builds it: the game hash and final
      crash point are passed under the keys `gameHash` and `finalMultiplier`,
      which the schema does not have, so strict mode drops them and the
      schema's `gameSessionHash` and `finalCrashPoint` paths stay empty. */
  function AnalyticsDocumentAsWritten(d: SessionData, m: CrashPoint.MultiplierInfo): (r: AnalyticsRecord)
    ensures r.gameSessionHash.None? && r.finalCrashPoint.None?
  {
    NewSessionAnalytics(AnalyticsFields(
      d.sessionId, RUNNING, d.totalBetAmount, |d.bets|, d.clientSeedDetails, d.clientSeed,
      m.serverSeed, DigestText(m.hashedServerSeed), None, m.rawCrashPoint, None))
  }

  /** The analytics document under the schema's own path names. */
  function AnalyticsDocument(d: SessionData, m: CrashPoint.MultiplierInfo): (r: AnalyticsRecord)
    ensures r.sessionId == d.sessionId && r.gamePhase == RUNNING && r.profited == PENDING
    ensures r.totalBetAmount == d.totalBetAmount && r.totalPlayers == |d.bets| && r.totalCashoutAmount == 0
    ensures r.gameSessionHash == DigestText(m.gameHash) && r.finalCrashPoint == m.finalCrashPoint
    ensures r.rawCrashPoint == m.rawCrashPoint && r.clientSeed == d.clientSeed
  {
    NewSessionAnalytics(AnalyticsFields(
      d.sessionId, RUNNING, d.totalBetAmount, |d.bets|, d.clientSeedDetails, d.clientSeed,
      m.serverSeed, DigestText(m.hashedServerSeed), DigestText(m.gameHash), m.rawCrashPoint,
      m.finalCrashPoint))
  }

  /** Attempt k (from 0) of a save meets a database fault. */
  function Faulty(faults: seq<bool>, k: nat): bool
  {
    k < |faults| && faults[k]
  }

  /** One `save()`: refused on a fault, on a schema violation and when a
      record of the round already exists (the session id is unique). */
  function SaveAttempt(s: DbState, doc: AnalyticsRecord, fault: bool): (r: Option<DbState>)
    ensures r.Some? <==> !fault && SatisfiesSchema(doc) && doc.sessionId !in s.analytics
    ensures r.Some? ==> r.value == s.(analytics := s.analytics[doc.sessionId := doc])
  {
    if !fault && SatisfiesSchema(doc) && doc.sessionId !in s.analytics
    then Some(s.(analytics := s.analytics[doc.sessionId := doc]))
    else None
  }

  datatype SaveOutcome = Saved(state: DbState) | GaveUp

  /** The save from attempt `retries` (counting from 1) on: a failed attempt
      is retried until attempt MAX_RETRIES + 1 has failed. */
  function SaveWithRetries(s: DbState, doc: AnalyticsRecord, retries: nat, faults: seq<bool>): (r: SaveOutcome)
    requires 1 <= retries <= MAX_RETRIES + 1
    ensures r.Saved? ==> exists k :: retries - 1 <= k <= MAX_RETRIES && SaveAttempt(s, doc, Faulty(faults, k)) == Some(r.state)
    ensures r.GaveUp? <==> forall k :: retries - 1 <= k <= MAX_RETRIES ==> SaveAttempt(s, doc, Faulty(faults, k)).None?
    decreases MAX_RETRIES + 1 - retries
  {
    match SaveAttempt(s, doc, Faulty(faults, retries - 1))
    case Some(s') => Saved(s')
    case None => if retries > MAX_RETRIES then GaveUp else SaveWithRetries(s, doc, retries + 1, faults)
  }

  /** A save gives up exactly when the document is invalid, the round is
      already recorded, or all four attempts meet a fault. */
  lemma SaveGivesUpIff(s: DbState, doc: AnalyticsRecord, faults: seq<bool>)
    ensures SaveWithRetries(s, doc, 1, faults).GaveUp? <==>
      !SatisfiesSchema(doc) || doc.sessionId in s.analytics
      || (Faulty(faults, 0) && Faulty(faults, 1) && Faulty(faults, 2) && Faulty(faults, 3))
  {
    var r := SaveWithRetries(s, doc, 1, faults);
    if r.GaveUp? && SatisfiesSchema(doc) && doc.sessionId !in s.analytics {
      assert SaveAttempt(s, doc, Faulty(faults, 0)).None?;
      assert SaveAttempt(s, doc, Faulty(faults, 1)).None?;
      assert SaveAttempt(s, doc, Faulty(faults, 2)).None?;
      assert SaveAttempt(s, doc, Faulty(faults, 3)).None?;
    }
  }

  /** As written, no round with bets can be saved, whatever the database does. */
  lemma {:induction false} AsWrittenSaveAlwaysGivesUp(s: DbState, d: SessionData, m: CrashPoint.MultiplierInfo,
                                                      faults: seq<bool>)
    ensures !SatisfiesSchema(AnalyticsDocumentAsWritten(d, m))
    ensures SaveWithRetries(s, AnalyticsDocumentAsWritten(d, m), 1, faults) == GaveUp
  {
    SaveGivesUpIff(s, AnalyticsDocumentAsWritten(d, m), faults);
  }

  /** With the schema's path names, a round whose seeds and crash points are
      set (the final crash point at least 1) is saved on the first fault-free
      attempt. */
  lemma {:induction false} CorrectedSaveSucceeds(s: DbState, d: SessionData, m: CrashPoint.MultiplierInfo,
                                                 faults: seq<bool>)
    requires d.sessionId != "" && d.clientSeed != "" && d.sessionId !in s.analytics
    requires m.serverSeed.Some? && m.serverSeed.value != "" && m.hashedServerSeed.Some? && m.gameHash.Some?
    requires m.rawCrashPoint.Some? && m.rawCrashPoint.value >= 100
    requires m.finalCrashPoint.Some? && m.finalCrashPoint.value >= 100
    requires !Faulty(faults, 0)
    ensures SaveWithRetries(s, AnalyticsDocument(d, m), 1, faults)
            == Saved(s.(analytics := s.analytics[d.sessionId := AnalyticsDocument(d, m)]))
  {
    var doc := AnalyticsDocument(d, m);
    assert |m.hashedServerSeed.value| == 64;
    assert RequiredText(doc.hashedServerSeed);
    assert |m.gameHash.value| == 64;
    assert RequiredText(doc.gameSessionHash);
  }

  /** A game hash whose first byte is 0 or 1 gives the raw crash point 1.00.
      With a house edge above half a percent the final crash point is then
      below the schema's minimum of 1, so even with the schema's path names
      the round's analytics are never saved and its bets are refunded. */
  lemma {:induction false} LowCrashPointSaveGivesUp(s: DbState, d: SessionData, sha256: string -> CrashPoint.HexDigest,
                                                    config: CrashPoint.GeneratorConfig, m: CrashPoint.MultiplierInfo,
                                                    serverSeed: string, faults: seq<bool>)
    requires config.maxCrashPoint >= 100
    requires 0 <= config.houseEdge.num <= config.houseEdge.den && 200 * config.houseEdge.num > config.houseEdge.den
    requires CrashPoint.HashPrefixValue(sha256(serverSeed + d.clientSeed)) <= 1
    ensures var doc := AnalyticsDocument(d, PreparedInfo(sha256, config, m, serverSeed, d.clientSeed));
      && doc.finalCrashPoint.value < 100
      && !SatisfiesSchema(doc)
      && SaveWithRetries(s, doc, 1, faults) == GaveUp
  {
    CrashPoint.LowByteGivesOne(CrashPoint.HashPrefixValue(sha256(serverSeed + d.clientSeed)), config.maxCrashPoint);
    CrashPoint.EdgeTakesOneBelowOne(config.houseEdge);
    var doc := AnalyticsDocument(d, PreparedInfo(sha256, config, m, serverSeed, d.clientSeed));
    SaveGivesUpIff(s, doc, faults);
  }

  /** The final crash point kept at 1.00 or above, as the schema demands. */
  function ClampedFinalCrashPoint(raw: int, houseEdge: CrashPoint.Fraction): (r: int)
    ensures r >= 100
    ensures CrashPoint.FinalCrashPoint(raw, houseEdge) >= 100 ==> r == CrashPoint.FinalCrashPoint(raw, houseEdge)
  {
    var f := CrashPoint.FinalCrashPoint(raw, houseEdge);
    if f < 100 then 100 else f
  }

  /** A prepared round whose final crash point is clamped at 1.00. */
  function ClampedPreparedInfo(sha256: string -> CrashPoint.HexDigest, config: CrashPoint.GeneratorConfig,
                               m: CrashPoint.MultiplierInfo, serverSeed: string, clientSeed: string)
    : CrashPoint.MultiplierInfo
  {
    var p := PreparedInfo(sha256, config, m, serverSeed, clientSeed);
    p.(finalCrashPoint := Some(ClampedFinalCrashPoint(p.rawCrashPoint.value, config.houseEdge)))
  }

  /** With the final crash point clamped, every prepared round with a
      session id and seeds satisfies the schema, whatever its game hash, and
      is saved on the first fault-free attempt. */
  lemma {:induction false} ClampedRoundSaves(s: DbState, d: SessionData, sha256: string -> CrashPoint.HexDigest,
                                             config: CrashPoint.GeneratorConfig, m: CrashPoint.MultiplierInfo,
                                             serverSeed: string, faults: seq<bool>)
    requires config.maxCrashPoint >= 100
    requires d.sessionId != "" && d.clientSeed != "" && d.sessionId !in s.analytics && serverSeed != ""
    requires !Faulty(faults, 0)
    ensures var doc := AnalyticsDocument(d, ClampedPreparedInfo(sha256, config, m, serverSeed, d.clientSeed));
      && SatisfiesSchema(doc)
      && SaveWithRetries(s, doc, 1, faults) == Saved(s.(analytics := s.analytics[d.sessionId := doc]))
  {
    var m' := ClampedPreparedInfo(sha256, config, m, serverSeed, d.clientSeed);
    CrashPoint.RawCrashPointInRange(CrashPoint.HashPrefixValue(sha256(serverSeed + d.clientSeed)), config.maxCrashPoint);
    CorrectedSaveSucceeds(s, d, m', faults);
  }

  /** A prepared round's stored fields pass a player's check: once the server
      seed is revealed, the published hash, the game hash and the final crash
      point the generator holds are exactly those the seeds give. */
  lemma PreparedRoundVerifies(sha256: string -> CrashPoint.HexDigest, config: CrashPoint.GeneratorConfig,
                              m: CrashPoint.MultiplierInfo, serverSeed: string, clientSeed: string)
    ensures var p := PreparedInfo(sha256, config, m, serverSeed, clientSeed);
      CrashPoint.VerifyRound(sha256, config, p.serverSeed.value, p.hashedServerSeed.value, clientSeed,
                             p.gameHash.value, p.finalCrashPoint.value)
  {
    var p := PreparedInfo(sha256, config, m, serverSeed, clientSeed);
    CrashPoint.VerificationRoundTrip(sha256, config, serverSeed, clientSeed, p.finalCrashPoint.value);
  }

  /** The bets of the round that are neither refunded nor cashed out become
      BUSTED; every other bet is left alone. */
  function BustBets(bets: seq<BetRecord>, sessionId: string): (r: seq<BetRecord>)
    ensures |r| == |bets|
    ensures forall i :: 0 <= i < |bets| ==>
      r[i] == if bets[i].sessionId == sessionId && bets[i].status !in {REFUNDED, CASHEDOUT}
              then bets[i].(status := BUSTED) else bets[i]
    ensures BetsEvolve(bets, r)
  {
    seq(|bets|, i requires 0 <= i < |bets| =>
      if bets[i].sessionId == sessionId && bets[i].status !in {REFUNDED, CASHEDOUT}
      then bets[i].(status := BUSTED) else bets[i])
  }

  datatype EndOfSessionStep = EndOfSessionStep(error: Option<AppError>, state: DbState)

  /** The end-of-round transaction: bust the round's open bets and classify
      the round's profit; without an analytics record the transaction aborts. */
  function EndOfSessionTx(s: DbState, sessionId: string): (t: EndOfSessionStep)
    ensures t.error.Some? <==> sessionId !in s.analytics
    ensures t.error.Some? ==> t.error == Some(WithDetails(GameError, "Session analytics not found.")) && t.state == s
    ensures t.error.None? ==>
      && t.state.users == s.users
      && t.state.bets == BustBets(s.bets, sessionId)
      && t.state.analytics == s.analytics[sessionId := ApplyCalculateProfit(s.analytics[sessionId])]
  {
    if sessionId !in s.analytics then EndOfSessionStep(Some(WithDetails(GameError, "Session analytics not found.")), s)
    else
      EndOfSessionStep(None, s.(bets := BustBets(s.bets, sessionId),
                                analytics := s.analytics[sessionId := ApplyCalculateProfit(s.analytics[sessionId])]))
  }

  /** One tick's growth: m + m * 0.0035. */
  function Grow(m: Money.Ratio): (r: Money.Ratio)
    ensures 2000 * r.num * m.den == 2007 * m.num * r.den
  {
    Money.Ratio(m.num * 2007, m.den * 2000)
  }

  /** The multiplier after k ticks from 1 is at least 1 + 0.0035 k. */
  lemma {:induction false} GrowthAtLeastLinear(k: nat)
    ensures var m := GrowTimes(Money.Ratio(1, 1), k); 2000 * m.num >= (2000 + 7 * k) * m.den
  {
    if k > 0 {
      GrowthAtLeastLinear(k - 1);
      var m := GrowTimes(Money.Ratio(1, 1), k - 1);
      assert 2000 * (m.num * 2007) >= (2000 + 7 * k) * (m.den * 2000) by {
        assert 2000 * m.num >= (2000 + 7 * (k - 1)) * m.den;
        Money.MulMonotone((2000 + 7 * (k - 1)) * m.den, 2000 * m.num, 2007);
        assert (2000 + 7 * (k - 1)) * m.den * 2007 >= (2000 + 7 * k) * m.den * 2000;
      }
    }
  }

  function GrowTimes(m: Money.Ratio, k: nat): Money.Ratio
  {
    if k == 0 then m else Grow(GrowTimes(m, k - 1))
  }

  /** A round whose final crash point is F (in hundredths) crashes within
      2000 (F - 100) / 700 + 1 ticks: there is a tick count at which the
      multiplier has reached F. */
  lemma CrashIsReached(finalCrashPoint: int)
    ensures var k := if finalCrashPoint <= 100 then 0 else (20 * (finalCrashPoint - 100)) / 7 + 1;
      Money.AtLeast(GrowTimes(Money.Ratio(1, 1), k), finalCrashPoint)
  {
    var k: nat := if finalCrashPoint <= 100 then 0 else (20 * (finalCrashPoint - 100)) / 7 + 1;
    var m := GrowTimes(Money.Ratio(1, 1), k);
    GrowthAtLeastLinear(k);
    assert 7 * k >= 20 * (finalCrashPoint - 100);
    assert (2000 + 7 * k) * m.den >= 20 * finalCrashPoint * m.den by {
      Money.MulMonotone(20 * finalCrashPoint, 2000 + 7 * k, m.den);
    }
  }

  /** The number of countdown ticks, from the value t, until the tick that
      starts the next round. */
  function CountdownTicks(t: int): (n: nat)
    decreases t
  {
    if t <= 0 then 1 else 1 + CountdownTicks(t - COUNTDOWN_STEP)
  }

  /** From 4 seconds the next round starts on the 41st tick. */
  lemma {:induction false} CountdownTicksFromWhole(k: nat)
    ensures CountdownTicks(COUNTDOWN_STEP * k) == k + 1
  {
    if k > 0 {
      CountdownTicksFromWhole(k - 1);
      assert COUNTDOWN_STEP * k - COUNTDOWN_STEP == COUNTDOWN_STEP * (k - 1);
    }
  }

  /** A contribution to the client seed from a bettor; the seed itself may
      be missing. */
  datatype SeedContribution = SeedContribution(clientSeed: Option<string>, username: string)

  /** The game hash is refused for a blank client seed or an empty server seed. */
  predicate HashRefused(clientSeed: string, serverSeed: string)
  {
    Text.IsBlank(clientSeed) || serverSeed == ""
  }

  /** The generator's fields once a round is prepared from its two seeds. */
  function PreparedInfo(sha256: string -> CrashPoint.HexDigest, config: CrashPoint.GeneratorConfig,
                        m: CrashPoint.MultiplierInfo, serverSeed: string, clientSeed: string): CrashPoint.MultiplierInfo
  {
    var p := CrashPoint.CrashPointsFromSeeds(sha256, config, serverSeed, clientSeed);
    m.(serverSeed := Some(serverSeed), hashedServerSeed := Some(sha256(serverSeed)),
       gameHash := Some(sha256(serverSeed + clientSeed)), rawCrashPoint := Some(p.raw),
       finalCrashPoint := Some(p.final))
  }

  /** The summary while the refunds are under way. */
  function InProgress(totalBetAmount: int, numberOfUsersToRefund: nat, p: RefundProgress): RefundsSummary
  {
    RefundsSummary(RefundPartial, totalBetAmount, p.totalAmountRefunded, numberOfUsersToRefund,
                   p.numberOfUsersRefunded, p.failedRefunds, p.successfulRefunds, p.errors, "")
  }

  /** Clearing cleared schedulers changes nothing. */
  lemma ClearedTwice(m: map<string, Slot>)
    ensures ClearedSlots(ClearedSlots(m)) == ClearedSlots(m)
  {
  }

  class GameSessionManager {
    const multiplierGenerator: CrashPoint.MultiplierGenerator
    const db: Database
    var sessionData: SessionData
    var timeToNextSession: int
    var intervals: map<string, Slot>
    var timeouts: map<string, Slot>
    var broadcasts: seq<Broadcast>

    ghost predicate Valid()
      reads this
    {
      && intervals.Keys == {MULTIPLIER_COUNT_UP, NEXT_GAME_COUNT_DOWN}
      && timeouts.Keys == {NEXT_GAME_DELAY}
      && |sessionData.clientSeedDetails| <= MAXIMUM_CLIENT_SEED_TO_USE
    }

    constructor (sha256: string -> CrashPoint.HexDigest, base64: seq<CrashPoint.byte> -> string,
                 config: CrashPoint.GeneratorConfig, db: Database, sessionId: string)
      ensures Valid() && fresh(multiplierGenerator) && this.db == db
      ensures multiplierGenerator.sha256 == sha256 && multiplierGenerator.base64 == base64
      ensures multiplierGenerator.config == config
      ensures multiplierGenerator.multiplierData == CrashPoint.EmptyMultiplierInfo()
      ensures sessionData == InitializeSessionData(sessionId)
      ensures timeToNextSession == TIME_TO_NEXT_SESSION && broadcasts == []
      ensures forall k :: k in intervals ==> intervals[k] == Empty
      ensures forall k :: k in timeouts ==> timeouts[k] == Empty
    {
      multiplierGenerator := new CrashPoint.MultiplierGenerator(sha256, base64, config);
      this.db := db;
      sessionData := InitializeSessionData(sessionId);
      timeToNextSession := TIME_TO_NEXT_SESSION;
      intervals := map[MULTIPLIER_COUNT_UP := Empty, NEXT_GAME_COUNT_DOWN := Empty];
      timeouts := map[NEXT_GAME_DELAY := Empty];
      broadcasts := [];
    }

    /** Null every scheduler entry, whatever its state. */
    method ClearAllSchedulers()
      modifies this
      ensures intervals == ClearedSlots(old(intervals)) && timeouts == ClearedSlots(old(timeouts))
      ensures sessionData == old(sessionData) && timeToNextSession == old(timeToNextSession)
      ensures broadcasts == old(broadcasts)
    {
      var cleared := intervals;
      var keys := cleared.Keys;
      while keys != {}
        invariant keys <= cleared.Keys == intervals.Keys
        invariant forall k :: k in cleared && k !in keys ==> cleared[k] == Empty
        invariant forall k :: k in keys ==> cleared[k] == intervals[k]
        decreases keys
      {
        var k :| k in keys;
        if cleared[k] != Empty {
          cleared := cleared[k := Empty];
        }
        keys := keys - {k};
      }
      intervals := cleared;
      cleared := timeouts;
      keys := cleared.Keys;
      while keys != {}
        invariant keys <= cleared.Keys == timeouts.Keys
        invariant forall k :: k in cleared && k !in keys ==> cleared[k] == Empty
        invariant forall k :: k in keys ==> cleared[k] == timeouts[k]
        decreases keys
      {
        var k :| k in keys;
        if cleared[k] != Empty {
          cleared := cleared[k := Empty];
        }
        keys := keys - {k};
      }
      timeouts := cleared;
    }

    /** The refund fallback: each in-memory bet refunded in its own
        transaction, in order, and the summary of the outcome. */
    method ProcessRefundsDueToSaveSessionAnalyticsFailure() returns (refundsDetails: RefundsSummary)
      modifies db
      ensures var r := ProcessRefundsSpec(old(db.state), sessionData.sessionId, sessionData.bets,
                                          sessionData.totalBetAmount);
        refundsDetails == r.summary && db.state == r.state
    {
      var bets := sessionData.bets;
      var sessionId := sessionData.sessionId;
      var totalBetAmount := sessionData.totalBetAmount;
      ghost var s0 := db.state;
      ghost var p := RefundProgress(s0, [], [], [], 0, 0);
      refundsDetails := RefundsSummary(RefundPartial, totalBetAmount, 0, |bets|, 0, [], [], [], "");
      for i := 0 to |bets|
        invariant p == RefundLoop(s0, sessionId, bets[..i])
        invariant db.state == p.state && refundsDetails == InProgress(totalBetAmount, |bets|, p)
      {
        RefundLoopSnoc(s0, sessionId, bets, i);
        var currentBet := bets[i];
        var t := RefundTx(db.state, sessionId, currentBet);
        if t.error.None? {
          db.state := t.state;
          refundsDetails := refundsDetails.(
            successfulRefunds := refundsDetails.successfulRefunds + [RefundDetail(currentBet.userId, currentBet.stake, None)],
            totalAmountRefunded := refundsDetails.totalAmountRefunded + currentBet.stake,
            numberOfUsersRefunded := refundsDetails.numberOfUsersRefunded + 1);
          p := p.(state := t.state,
                  successfulRefunds := p.successfulRefunds + [RefundDetail(currentBet.userId, currentBet.stake, None)],
                  totalAmountRefunded := p.totalAmountRefunded + currentBet.stake,
                  numberOfUsersRefunded := p.numberOfUsersRefunded + 1);
        } else {
          refundsDetails := refundsDetails.(
            failedRefunds := refundsDetails.failedRefunds + [RefundDetail(currentBet.userId, currentBet.stake, t.error)],
            errors := refundsDetails.errors + [t.error.value]);
          p := p.(failedRefunds := p.failedRefunds + [RefundDetail(currentBet.userId, currentBet.stake, t.error)],
                  errors := p.errors + [t.error.value]);
        }
      }
      assert bets[..|bets|] == bets;
      var (status, message) := Conclude(refundsDetails.numberOfUsersRefunded, refundsDetails.numberOfUsersToRefund);
      refundsDetails := refundsDetails.(status := status, message := message);
    }

    /** The analytics save from attempt `retries` on. Every attempt first
        sets the round's total stake; after the last failure everyone is
        refunded and the save reports failure. */
    method SaveGameSessionAnalyticsWithRetries(retries: nat, faults: seq<bool>) returns (saved: bool)
      requires 1 <= retries <= MAX_RETRIES + 1
      modifies this, db
      ensures sessionData == old(sessionData).(totalBetAmount := SumStakes(old(sessionData).bets))
      ensures timeToNextSession == old(timeToNextSession) && intervals == old(intervals)
      ensures timeouts == old(timeouts) && broadcasts == old(broadcasts)
      ensures var o := SaveWithRetries(old(db.state), AnalyticsDocument(sessionData, multiplierGenerator.multiplierData),
                                       retries, faults);
        && saved == o.Saved?
        && (o.Saved? ==> db.state == o.state)
        && (o.GaveUp? ==> db.state == ProcessRefundsSpec(old(db.state), sessionData.sessionId, sessionData.bets,
                                                          sessionData.totalBetAmount).state)
      decreases MAX_RETRIES + 1 - retries
    {
      var totalBetAmount := SumStakes(sessionData.bets);
      sessionData := sessionData.(totalBetAmount := totalBetAmount);
      var newSessionAnalytics := AnalyticsDocument(sessionData, multiplierGenerator.multiplierData);
      var attempt := SaveAttempt(db.state, newSessionAnalytics, Faulty(faults, retries - 1));
      if attempt.Some? {
        db.state := attempt.value;
        return true;
      }
      if retries > MAX_RETRIES {
        var _ := ProcessRefundsDueToSaveSessionAnalyticsFailure();
        return false;
      }
      saved := SaveGameSessionAnalyticsWithRetries(retries + 1, faults);
    }

    /** The first half of starting a round: PREPARING is broadcast, a new
        server seed is generated and its hash broadcast, the client seed is
        fixed, and the game hash and crash points are computed. `ok` is false
        when the game hash is refused. */
    method PrepareRound(randomBytes: seq<CrashPoint.byte>) returns (ok: bool)
      requires |randomBytes| == 33
      modifies this, multiplierGenerator
      ensures sessionData == old(sessionData).(gamePhase := PREPARING, clientSeed := ChosenClientSeed(old(sessionData)))
      ensures var seed := multiplierGenerator.base64(randomBytes);
        broadcasts == old(broadcasts) + [PhasePreparing, HashedServerSeed(multiplierGenerator.sha256(seed))]
      ensures intervals == ClearedSlots(old(intervals)) && timeouts == ClearedSlots(old(timeouts))
      ensures timeToNextSession == old(timeToNextSession)
      ensures var seed := multiplierGenerator.base64(randomBytes);
        var clientSeed := ChosenClientSeed(old(sessionData));
        && (ok <==> !HashRefused(clientSeed, seed))
        && multiplierGenerator.multiplierData
           == if ok then PreparedInfo(multiplierGenerator.sha256, multiplierGenerator.config,
                                      old(multiplierGenerator.multiplierData), seed, clientSeed)
              else old(multiplierGenerator.multiplierData).(serverSeed := Some(seed),
                                                            hashedServerSeed := Some(multiplierGenerator.sha256(seed)))
    {
      ClearAllSchedulers();
      sessionData := sessionData.(gamePhase := PREPARING);
      broadcasts := broadcasts + [PhasePreparing];
      var _, hashedServerSeed := multiplierGenerator.GenerateServerSeed(randomBytes);
      broadcasts := broadcasts + [HashedServerSeed(hashedServerSeed)];
      sessionData := sessionData.(clientSeed := ChosenClientSeed(sessionData));
      var hash := multiplierGenerator.GenerateGameHash(sessionData.clientSeed);
      if hash.Failure? {
        return false;
      }
      var _ := multiplierGenerator.CalculateCrashPoint();
      return true;
    }

    /** The start's failure handler: every scheduler cleared and the error
        message broadcast; the round stays PREPARING. */
    method HaltRound()
      modifies this
      ensures intervals == ClearedSlots(old(intervals)) && timeouts == ClearedSlots(old(timeouts))
      ensures broadcasts == old(broadcasts) + [GameErrorBroadcast(GAME_ERROR_MESSAGE)]
      ensures sessionData == old(sessionData) && timeToNextSession == old(timeToNextSession)
    {
      ClearAllSchedulers();
      broadcasts := broadcasts + [GameErrorBroadcast(GAME_ERROR_MESSAGE)];
    }

    /** What starting a round does, from the scheduler entries `intervals0`:
        the round is prepared; a refused hash halts it in PREPARING; a round
        without bets runs; a round with bets runs exactly when its analytics
        are saved, and otherwise halts after everyone is refunded. */
    twostate predicate RoundStarted(randomBytes: seq<CrashPoint.byte>, saveFaults: seq<bool>,
                                    intervals0: map<string, Slot>)
      reads this, multiplierGenerator, db
    {
      && sessionData == old(sessionData).(clientSeed := ChosenClientSeed(old(sessionData)),
                                          gamePhase := sessionData.gamePhase,
                                          totalBetAmount := sessionData.totalBetAmount)
      && sessionData.gamePhase in {PREPARING, RUNNING}
      && (var seed := multiplierGenerator.base64(randomBytes);
          broadcasts == old(broadcasts) + [PhasePreparing, HashedServerSeed(multiplierGenerator.sha256(seed))]
                        + (if sessionData.gamePhase == RUNNING then [] else [GameErrorBroadcast(GAME_ERROR_MESSAGE)]))
      && timeouts == ClearedSlots(old(timeouts))
      && intervals == (if sessionData.gamePhase == RUNNING
                       then ClearedSlots(intervals0)[MULTIPLIER_COUNT_UP := Armed]
                       else ClearedSlots(intervals0))
      && (var seed := multiplierGenerator.base64(randomBytes);
          var clientSeed := ChosenClientSeed(old(sessionData));
          if HashRefused(clientSeed, seed) then
            && sessionData.gamePhase == PREPARING && db.state == old(db.state)
            && sessionData.totalBetAmount == old(sessionData.totalBetAmount)
            && multiplierGenerator.multiplierData
               == old(multiplierGenerator.multiplierData).(serverSeed := Some(seed),
                                                           hashedServerSeed := Some(multiplierGenerator.sha256(seed)))
          else
            && multiplierGenerator.multiplierData
               == PreparedInfo(multiplierGenerator.sha256, multiplierGenerator.config,
                               old(multiplierGenerator.multiplierData), seed, clientSeed)
            && (|sessionData.bets| == 0 ==>
                  && sessionData.gamePhase == RUNNING && db.state == old(db.state)
                  && sessionData.totalBetAmount == old(sessionData.totalBetAmount))
            && (|sessionData.bets| > 0 ==>
                  var o := SaveWithRetries(old(db.state), AnalyticsDocument(sessionData, multiplierGenerator.multiplierData),
                                           1, saveFaults);
                  && sessionData.totalBetAmount == SumStakes(sessionData.bets)
                  && (sessionData.gamePhase == RUNNING <==> o.Saved?)
                  && db.state == if o.Saved? then o.state
                                 else ProcessRefundsSpec(old(db.state), sessionData.sessionId, sessionData.bets,
                                                         sessionData.totalBetAmount).state))
    }

    /** Start the round: prepare it, save its analytics when there are bets,
        and then make it RUNNING with the multiplier timer armed. A refused
        hash or a save that gives up halts the round in PREPARING. */
    method StartGameSession(randomBytes: seq<CrashPoint.byte>, saveFaults: seq<bool>)
      requires |randomBytes| == 33 && Valid()
      modifies this, multiplierGenerator, db
      ensures Valid() && timeToNextSession == old(timeToNextSession)
      ensures RoundStarted(randomBytes, saveFaults, old(intervals))
    {
      var ok := PrepareRound(randomBytes);
      if !ok {
        ClearedTwice(old(intervals));
        ClearedTwice(old(timeouts));
        HaltRound();
        return;
      }
      if |sessionData.bets| > 0 {
        var saved := SaveGameSessionAnalyticsWithRetries(1, saveFaults);
        if !saved {
          ClearedTwice(old(intervals));
          ClearedTwice(old(timeouts));
          HaltRound();
          return;
        }
      }
      sessionData := sessionData.(gamePhase := RUNNING);
      intervals := intervals[MULTIPLIER_COUNT_UP := Armed];
    }

    /** The end-of-round transaction on the database; its failure is not
        reported to anyone. */
    method ProcessEndOfSession() returns (error: Option<AppError>)
      modifies db
      ensures var t := EndOfSessionTx(old(db.state), sessionData.sessionId);
        error == t.error && db.state == t.state
    {
      var t := EndOfSessionTx(db.state, sessionData.sessionId);
      if t.error.None? {
        db.state := t.state;
      }
      error := t.error;
    }

    /** The crash: CRASHED is broadcast with the crash point, the round's open
        bets are busted, the generator is reset, a new BETTING round with the
        given id replaces the old one and the countdown timer is armed. The
        entry for the previous-rounds history is returned. */
    method EndSession(nextSessionId: string) returns (crashedMultiplierInfo: PreviousMultiplier)
      requires Valid() && multiplierGenerator.multiplierData.finalCrashPoint.Some?
      modifies this, multiplierGenerator, db
      ensures Valid()
      ensures crashedMultiplierInfo == PreviousMultiplier(old(multiplierGenerator.multiplierData.finalCrashPoint.value),
                                                          old(sessionData.sessionId))
      ensures broadcasts == old(broadcasts) + [PhaseCrashed(CRASHED, crashedMultiplierInfo),
                                               NextGameCountDown(BETTING, timeToNextSession)]
      ensures db.state == if |old(sessionData.bets)| > 0
                          then EndOfSessionTx(old(db.state), old(sessionData.sessionId)).state
                          else old(db.state)
      ensures multiplierGenerator.multiplierData == CrashPoint.EmptyMultiplierInfo()
      ensures sessionData == InitializeSessionData(nextSessionId)
      ensures intervals == old(intervals)[MULTIPLIER_COUNT_UP := Stop(old(intervals)[MULTIPLIER_COUNT_UP])]
                                         [NEXT_GAME_COUNT_DOWN := Armed]
      ensures timeouts == old(timeouts) && timeToNextSession == old(timeToNextSession)
    {
      intervals := intervals[MULTIPLIER_COUNT_UP := Stop(intervals[MULTIPLIER_COUNT_UP])];
      sessionData := sessionData.(gamePhase := CRASHED);
      crashedMultiplierInfo := PreviousMultiplier(multiplierGenerator.multiplierData.finalCrashPoint.value,
                                                  sessionData.sessionId);
      broadcasts := broadcasts + [PhaseCrashed(sessionData.gamePhase, crashedMultiplierInfo)];
      if |sessionData.bets| > 0 {
        var _ := ProcessEndOfSession();
      }
      multiplierGenerator.ResetMultiplierData();
      sessionData := InitializeSessionData(nextSessionId);
      broadcasts := broadcasts + [NextGameCountDown(sessionData.gamePhase, timeToNextSession)];
      intervals := intervals[NEXT_GAME_COUNT_DOWN := Armed];
    }

    /** What one multiplier tick leaves: below the crash point the
        multiplier grows by one step and is broadcast; once it reaches the
        crash point the round ends as `EndSession` states. */
    twostate predicate MultiplierIncremented(nextSessionId: string)
      reads this, multiplierGenerator, db
    {
      && old(multiplierGenerator.multiplierData.finalCrashPoint).Some?
      && MULTIPLIER_COUNT_UP in old(intervals)
      && timeToNextSession == old(timeToNextSession) && timeouts == old(timeouts)
      && (var m := Grow(old(sessionData.currentMultiplier));
          var crashPoint := old(multiplierGenerator.multiplierData.finalCrashPoint.value);
          && (!Money.AtLeast(m, crashPoint) ==>
                && sessionData == old(sessionData).(currentMultiplier := m)
                && broadcasts == old(broadcasts) + [CurrentMultiplier(old(sessionData.gamePhase), m,
                                                      DigestText(old(multiplierGenerator.multiplierData.hashedServerSeed)))]
                && db.state == old(db.state) && intervals == old(intervals)
                && multiplierGenerator.multiplierData == old(multiplierGenerator.multiplierData))
          && (Money.AtLeast(m, crashPoint) ==>
                && sessionData == InitializeSessionData(nextSessionId)
                && multiplierGenerator.multiplierData == CrashPoint.EmptyMultiplierInfo()
                && broadcasts == old(broadcasts)
                                 + [PhaseCrashed(CRASHED, PreviousMultiplier(crashPoint, old(sessionData.sessionId))),
                                    NextGameCountDown(BETTING, timeToNextSession)]
                && intervals == old(intervals)[MULTIPLIER_COUNT_UP := Stop(old(intervals)[MULTIPLIER_COUNT_UP])]
                                              [NEXT_GAME_COUNT_DOWN := Armed]
                && db.state == if |old(sessionData.bets)| > 0
                               then EndOfSessionTx(old(db.state), old(sessionData.sessionId)).state
                               else old(db.state)))
    }

    /** One multiplier tick: grow by 0.35 percent; on reaching the final
        crash point stop the timer and end the round, otherwise broadcast
        the new multiplier. The session-end information is returned exactly
        when the round crashed. */
    method IncrementMultiplier(nextSessionId: string) returns (ended: Option<PreviousMultiplier>)
      requires Valid() && multiplierGenerator.multiplierData.finalCrashPoint.Some?
      modifies this, multiplierGenerator, db
      ensures Valid() && MultiplierIncremented(nextSessionId)
      ensures var m := Grow(old(sessionData.currentMultiplier));
        var crashed := Money.AtLeast(m, old(multiplierGenerator.multiplierData.finalCrashPoint.value));
        && (ended.Some? <==> crashed)
        && (crashed ==> ended == Some(PreviousMultiplier(old(multiplierGenerator.multiplierData.finalCrashPoint.value),
                                                         old(sessionData.sessionId))))
    {
      var m := Grow(sessionData.currentMultiplier);
      sessionData := sessionData.(currentMultiplier := m);
      if Money.AtLeast(m, multiplierGenerator.multiplierData.finalCrashPoint.value) {
        intervals := intervals[MULTIPLIER_COUNT_UP := Stop(intervals[MULTIPLIER_COUNT_UP])];
        var info := EndSession(nextSessionId);
        return Some(info);
      }
      broadcasts := broadcasts + [CurrentMultiplier(sessionData.gamePhase, m,
                                                    DigestText(multiplierGenerator.multiplierData.hashedServerSeed))];
      return None;
    }

    /** One countdown tick: at or below zero stop the timer, reset the time to
        4 seconds and start the next round; otherwise take a tenth of a second
        off and broadcast the time left. */
    method NextGameCountDownTick(randomBytes: seq<CrashPoint.byte>, saveFaults: seq<bool>)
      requires |randomBytes| == 33 && Valid()
      modifies this, multiplierGenerator, db
      ensures Valid()
      ensures old(timeToNextSession) <= 0 ==>
        && timeToNextSession == TIME_TO_NEXT_SESSION
        && RoundStarted(randomBytes, saveFaults,
                        old(intervals)[NEXT_GAME_COUNT_DOWN := Stop(old(intervals)[NEXT_GAME_COUNT_DOWN])])
        && intervals[NEXT_GAME_COUNT_DOWN] == Empty
      ensures old(timeToNextSession) > 0 ==>
        && timeToNextSession == old(timeToNextSession) - COUNTDOWN_STEP
        && sessionData == old(sessionData) && db.state == old(db.state)
        && intervals == old(intervals) && timeouts == old(timeouts)
        && multiplierGenerator.multiplierData == old(multiplierGenerator.multiplierData)
        && broadcasts == old(broadcasts) + [NextGameCountDown(sessionData.gamePhase, timeToNextSession)]
    {
      if timeToNextSession <= 0 {
        intervals := intervals[NEXT_GAME_COUNT_DOWN := Stop(intervals[NEXT_GAME_COUNT_DOWN])];
        timeToNextSession := TIME_TO_NEXT_SESSION;
        StartGameSession(randomBytes, saveFaults);
        return;
      }
      timeToNextSession := timeToNextSession - COUNTDOWN_STEP;
      broadcasts := broadcasts + [NextGameCountDown(sessionData.gamePhase, timeToNextSession)];
    }

    /** A bettor's contribution to the client seed: ignored when the seed is
        missing or empty or when three contributions are already in; otherwise
        recorded, and the seed becomes the trimmed concatenation. */
    method UpdateSessionClientSeed(newClientSeed: SeedContribution)
      requires Valid()
      modifies this
      ensures Valid()
      ensures var accepted := newClientSeed.clientSeed.Some? && newClientSeed.clientSeed.value != ""
                              && |old(sessionData.clientSeedDetails)| < MAXIMUM_CLIENT_SEED_TO_USE;
        && (!accepted ==> sessionData == old(sessionData))
        && (accepted ==>
              sessionData == old(sessionData).(
                clientSeedDetails := old(sessionData.clientSeedDetails)
                                     + [ClientSeedDetails(newClientSeed.username, newClientSeed.clientSeed.value)],
                clientSeed := Text.Trim(old(sessionData.clientSeed) + newClientSeed.clientSeed.value)))
      ensures intervals == old(intervals) && timeouts == old(timeouts) && broadcasts == old(broadcasts)
      ensures timeToNextSession == old(timeToNextSession)
    {
      if newClientSeed.clientSeed.None? || newClientSeed.clientSeed.value == "" {
        return;
      }
      if |sessionData.clientSeedDetails| >= MAXIMUM_CLIENT_SEED_TO_USE {
        return;
      }
      var combinedClientSeed := Text.Trim(sessionData.clientSeed + newClientSeed.clientSeed.value);
      sessionData := sessionData.(
        clientSeedDetails := sessionData.clientSeedDetails
                             + [ClientSeedDetails(newClientSeed.username, newClientSeed.clientSeed.value)],
        clientSeed := combinedClientSeed);
    }

    /** Record a placed bet in the round's memory. */
    method AddPlayerToSession(bet: BetInMemory)
      requires Valid()
      modifies this
      ensures Valid()
      ensures sessionData == old(sessionData).(bets := old(sessionData.bets) + [bet])
      ensures intervals == old(intervals) && timeouts == old(timeouts) && broadcasts == old(broadcasts)
      ensures timeToNextSession == old(timeToNextSession)
    {
      sessionData := sessionData.(bets := sessionData.bets + [bet]);
    }
  }
}
