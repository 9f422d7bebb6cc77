/** The persisted per-round analytics record: its enumerations, the defaults
    and minimums its schema imposes, and the profit classification computed
    when the round ends. */
module SessionAnalytics {

  import opened Common

  datatype GamePhase = PREPARING | RUNNING | CRASHED | BETTING | ERROR

  datatype RoundOutcome = PROFIT | LOSS | BREAK_EVEN | PENDING

  datatype ClientSeedDetails = ClientSeedDetails(username: string, clientSeed: string)

  /** A stored record. Money amounts and crash points are in hundredths. */
  datatype AnalyticsRecord = AnalyticsRecord(
    sessionId: string,
    profited: RoundOutcome,
    totalBetAmount: int,
    totalCashoutAmount: int,
    totalProfit: int,
    gamePhase: GamePhase,
    serverSeed: Option<string>,
    hashedServerSeed: Option<string>,
    clientSeed: string,
    clientSeedDetails: seq<ClientSeedDetails>,
    gameSessionHash: Option<string>,
    rawCrashPoint: Option<int>,
    finalCrashPoint: Option<int>,
    totalPlayers: int)

  /** The values a new record is built from, under the schema's own path
      names; a path the caller does not supply is None. */
  datatype AnalyticsFields = AnalyticsFields(
    sessionId: string,
    gamePhase: GamePhase,
    totalBetAmount: int,
    totalPlayers: int,
    clientSeedDetails: seq<ClientSeedDetails>,
    clientSeed: string,
    serverSeed: Option<string>,
    hashedServerSeed: Option<string>,
    gameSessionHash: Option<string>,
    rawCrashPoint: Option<int>,
    finalCrashPoint: Option<int>)

  /** A new record: the supplied paths, with the schema defaults for the rest. */
  function NewSessionAnalytics(f: AnalyticsFields): (r: AnalyticsRecord)
    ensures r.profited == PENDING && r.totalCashoutAmount == 0 && r.totalProfit == 0
    ensures r.sessionId == f.sessionId && r.gamePhase == f.gamePhase
    ensures r.totalBetAmount == f.totalBetAmount && r.totalPlayers == f.totalPlayers
    ensures r.gameSessionHash == f.gameSessionHash && r.finalCrashPoint == f.finalCrashPoint
  {
    AnalyticsRecord(
      f.sessionId, PENDING, f.totalBetAmount, 0, 0, f.gamePhase,
      f.serverSeed, f.hashedServerSeed, f.clientSeed, f.clientSeedDetails,
      f.gameSessionHash, f.rawCrashPoint, f.finalCrashPoint, f.totalPlayers)
  }

  /** A required string path: present and not empty. */
  predicate RequiredText(s: Option<string>)
  {
    s.Some? && s.value != ""
  }

  /** A required number path with a minimum (in hundredths). */
  predicate RequiredAtLeast(n: Option<int>, min: int)
  {
    n.Some? && n.value >= min
  }

  /** The schema's validators: required paths present, a non-empty client
      seed, both crash points at least 1 and a non-negative player count. */
  predicate SatisfiesSchema(r: AnalyticsRecord)
  {
    && r.sessionId != ""
    && RequiredText(r.serverSeed)
    && RequiredText(r.hashedServerSeed)
    && r.clientSeed != ""
    && RequiredText(r.gameSessionHash)
    && RequiredAtLeast(r.rawCrashPoint, 100)
    && RequiredAtLeast(r.finalCrashPoint, 100)
    && r.totalPlayers >= 0
  }

  /** The schema's defaults never decide a save: a new record passes
      exactly when the paths its caller supplies do. */
  lemma NewRecordSchemaIff(f: AnalyticsFields)
    ensures SatisfiesSchema(NewSessionAnalytics(f))
            <==> && f.sessionId != "" && f.clientSeed != "" && f.totalPlayers >= 0
                 && RequiredText(f.serverSeed) && RequiredText(f.hashedServerSeed)
                 && RequiredText(f.gameSessionHash)
                 && RequiredAtLeast(f.rawCrashPoint, 100) && RequiredAtLeast(f.finalCrashPoint, 100)
  {
  }

  datatype ProfitStatus = ProfitStatus(totalProfit: int, profited: RoundOutcome)

  /** The house's result for the round: the house loses when more was paid
      out than staked, profits when less was, and breaks even otherwise. */
  function CalculateProfit(totalBetAmount: int, totalCashoutAmount: int): (p: ProfitStatus)
    ensures p.totalProfit == totalBetAmount - totalCashoutAmount
    ensures p.profited == LOSS <==> totalCashoutAmount > totalBetAmount
    ensures p.profited == BREAK_EVEN <==> totalCashoutAmount == totalBetAmount
    ensures p.profited == PROFIT <==> totalCashoutAmount < totalBetAmount
  {
    if totalCashoutAmount > totalBetAmount then
      ProfitStatus(totalBetAmount - totalCashoutAmount, LOSS)
    else if totalCashoutAmount == totalBetAmount then
      ProfitStatus(0, BREAK_EVEN)
    else
      ProfitStatus(totalBetAmount - totalCashoutAmount, PROFIT)
  }

  /** The outcome is never PENDING after classification and agrees with the
      sign of the profit. */
  lemma ProfitSignMatchesOutcome(totalBetAmount: int, totalCashoutAmount: int)
    ensures var p := CalculateProfit(totalBetAmount, totalCashoutAmount);
      && p.profited != PENDING
      && (p.profited == PROFIT <==> p.totalProfit > 0)
      && (p.profited == LOSS <==> p.totalProfit < 0)
      && (p.profited == BREAK_EVEN <==> p.totalProfit == 0)
  {
  }

  /** The record's `calculateProfit` method: the classification is stored
      together with the CRASHED phase. */
  function ApplyCalculateProfit(r: AnalyticsRecord): (r': AnalyticsRecord)
    ensures r'.totalProfit == r.totalBetAmount - r.totalCashoutAmount
    ensures r'.profited == CalculateProfit(r.totalBetAmount, r.totalCashoutAmount).profited
    ensures r'.gamePhase == CRASHED
    ensures r' == r.(totalProfit := r'.totalProfit, profited := r'.profited, gamePhase := CRASHED)
  {
    var p := CalculateProfit(r.totalBetAmount, r.totalCashoutAmount);
    r.(totalProfit := p.totalProfit, profited := p.profited, gamePhase := CRASHED)
  }
}
