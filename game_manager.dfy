/** The game manager: it wires the round, the ledger and the request queues
    together, keeps the previous-rounds history the round's end feeds, and
    answers a player's bet and cashout requests with one socket emit each.

    A handler runs from its phase gate to its emit without another handler
    in between: it submits its request and waits for the queue to drain,
    which settles every request waiting ahead of it and then its own. */
module GameManager {

  import opened Common
  import opened Errors
  import Money
  import History
  import opened Store
  import opened SessionAnalytics
  import opened Refunds
  import Session
  import CrashPoint
  import opened Ledger
  import opened BettingQueue
  import opened Validation

  /** The history keeps at most this many entries before the newest. */
  const HISTORY_LIMIT: nat := 15

  const NOT_BETTING_PHASE := "Cannot place bet when the game is not in the betting phase"
  const STAGE_TIME_OUT := "Stage time out"

  /** What a handler emits to the requesting socket; the event name carries
      the request's button id. */
  datatype SocketEmit =
    | PlacebetSuccess(buttonId: JsValue, betId: string, accountBalance: int)
    | PlacebetError(buttonId: JsValue, errorMessage: string)
    | CashoutSuccess(buttonId: JsValue, cashoutMultiplier: int, payout: int, accountBalance: int)
    | CashoutFailure(buttonId: JsValue, errorMessage: string)

  /** The ledger's data for a payload that passed validation. */
  function BetData(p: BettingPayload, limits: StakeLimits): (d: BettingDataToProcess)
    requires ValidateBetPayload(p, limits).None?
    ensures d.userId == p.userId.s && d.stake as real == p.stake.n * 100.0
    ensures limits.minStake - 100 < d.stake <= limits.maxStake
  {
    BettingDataToProcess(StakeHundredths(p, limits), p.userId.s)
  }

  /** How a bet request ends: refused outside the betting phase, then for an
      invalid payload, then when `waiting` requests already fill the queue;
      otherwise the ledger's result on the state `ledger` the requests ahead
      of it leave. */
  function BetRequestResult(phase: GamePhase, p: BettingPayload, limits: StakeLimits, waiting: nat,
                            ledger: DbState, sessionId: string): (r: Result<BettingResult>)
    ensures phase != BETTING ==> r == Failure(WithDescription(BettingError, NOT_BETTING_PHASE))
    ensures phase == BETTING && ValidateBetPayload(p, limits).Some? ==>
      r == Failure(ValidateBetPayload(p, limits).value)
    ensures r.Success? <==>
      && phase == BETTING && ValidateBetPayload(p, limits).None? && waiting < MAX_QUEUE_SIZE
      && p.userId.s in ledger.users && BetData(p, limits).stake <= ledger.users[p.userId.s].balance
    ensures r.Success? ==>
      && r.value.userId == p.userId.s && r.value.stake == BetData(p, limits).stake
      && r.value.accountBalance == ledger.users[p.userId.s].balance - r.value.stake
      && r.value.betId == BetId(|ledger.bets|)
  {
    if phase != BETTING then Failure(WithDescription(BettingError, NOT_BETTING_PHASE))
    else match ValidateBetPayload(p, limits)
      case Some(e) => Failure(e)
      case None =>
        match ValidateQueueSize(waiting)
        case Some(e) => Failure(e)
        case None => PlaceBetTx(ledger, sessionId, BetData(p, limits)).result
  }

  /** How a cashout request ends: refused outside the running phase, then
      for an invalid payload; otherwise the ledger's result for the bet at
      the live multiplier rounded to hundredths. */
  function CashoutRequestResult(phase: GamePhase, p: CashoutPayload, multiplier: Money.Ratio,
                                ledger: DbState, sessionId: string): (r: Result<CashoutResult>)
    ensures phase != RUNNING ==> r == Failure(WithDescription(CashoutError, STAGE_TIME_OUT))
    ensures phase == RUNNING && ValidateCashoutPayload(p).Some? ==> r == Failure(ValidateCashoutPayload(p).value)
    ensures phase == RUNNING && ValidateCashoutPayload(p).None? ==>
      r == CashoutTx(ledger, sessionId, CashoutDataToProcess(Money.RoundRatio(multiplier), p.betId.s)).result
    ensures r.Success? <==>
      && phase == RUNNING && ValidateCashoutPayload(p).None?
      && FindBet(ledger.bets, p.betId.s, sessionId).Some?
      && ledger.bets[FindBet(ledger.bets, p.betId.s, sessionId).value].status == ACTIVE
      && ledger.bets[FindBet(ledger.bets, p.betId.s, sessionId).value].userId in ledger.users
    ensures r.Success? ==>
      && r.value.betId == p.betId.s && r.value.cashoutMultiplier == Money.RoundRatio(multiplier)
      && r.value.payout == Payout(Money.RoundRatio(multiplier),
                                  ledger.bets[FindBet(ledger.bets, p.betId.s, sessionId).value].stake)
  {
    if phase != RUNNING then Failure(WithDescription(CashoutError, STAGE_TIME_OUT))
    else match ValidateCashoutPayload(p)
      case Some(e) => Failure(e)
      case None => CashoutTx(ledger, sessionId, CashoutDataToProcess(Money.RoundRatio(multiplier), p.betId.s)).result
  }

  function BetEmit(buttonId: JsValue, r: Result<BettingResult>): (e: SocketEmit)
    ensures e.buttonId == buttonId
    ensures e.PlacebetSuccess? <==> r.Success?
    ensures r.Failure? ==> e == PlacebetError(buttonId, r.error.description)
  {
    match r
    case Success(v) => PlacebetSuccess(buttonId, v.betId, v.accountBalance)
    case Failure(err) => PlacebetError(buttonId, err.description)
  }

  function CashoutEmit(buttonId: JsValue, r: Result<CashoutResult>): (e: SocketEmit)
    ensures e.buttonId == buttonId
    ensures e.CashoutSuccess? <==> r.Success?
    ensures r.Failure? ==> e == CashoutFailure(buttonId, r.error.description)
  {
    match r
    case Success(v) => CashoutSuccess(buttonId, v.cashoutMultiplier, v.payout, v.accountBalance)
    case Failure(err) => CashoutFailure(buttonId, err.description)
  }

  /** A bet request never succeeds outside the betting phase, and a cashout
      request never outside the running phase: the two cannot both succeed
      in one phase. */
  lemma BetAndCashoutPhasesDisjoint(phase: GamePhase, bp: BettingPayload, limits: StakeLimits, waiting: nat,
                                    cp: CashoutPayload, m: Money.Ratio, ledger: DbState, sessionId: string)
    ensures !(BetRequestResult(phase, bp, limits, waiting, ledger, sessionId).Success?
              && CashoutRequestResult(phase, cp, m, ledger, sessionId).Success?)
  {
  }

  class GameManager {
    const gameSession: Session.GameSessionManager
    const bettingManager: BettingManager
    const queuesManager: BettingQueueManager
    const limits: StakeLimits
    /** The previous rounds' crash points, newest first. */
    var previousMultipliers: seq<Session.PreviousMultiplier>
    var emits: seq<SocketEmit>

    /** The three services share one round and one store. */
    ghost predicate Valid()
      reads this, gameSession, bettingManager, queuesManager
    {
      && bettingManager.gameSession == gameSession
      && bettingManager.db == gameSession.db
      && queuesManager.bettingManager == bettingManager
      && gameSession.Valid() && queuesManager.Valid()
      && |previousMultipliers| <= HISTORY_LIMIT + 1
    }

    constructor (sha256: string -> CrashPoint.HexDigest, base64: seq<CrashPoint.byte> -> string,
                 config: CrashPoint.GeneratorConfig, limits: StakeLimits, db: Database, sessionId: string)
      ensures Valid() && fresh(gameSession) && fresh(bettingManager) && fresh(queuesManager)
      ensures gameSession.db == db && gameSession.sessionData == Session.InitializeSessionData(sessionId)
      ensures this.limits == limits && previousMultipliers == [] && emits == []
      ensures queuesManager.bettingQueue == [] && queuesManager.cashoutQueue == []
    {
      previousMultipliers := [];
      emits := [];
      this.limits := limits;
      var session := new Session.GameSessionManager(sha256, base64, config, db, sessionId);
      var betting := new BettingManager(session, db);
      gameSession := session;
      bettingManager := betting;
      queuesManager := new BettingQueueManager(betting);
    }

    /** The session-end listener: drop the oldest entry once more than 15
        are kept, then put the new one first. */
    method OnSessionEnd(info: Session.PreviousMultiplier)
      requires |previousMultipliers| <= HISTORY_LIMIT + 1
      modifies this`previousMultipliers
      ensures previousMultipliers == History.PushBounded(old(previousMultipliers), info, HISTORY_LIMIT)
      ensures |previousMultipliers| <= HISTORY_LIMIT + 1 && previousMultipliers[0] == info
    {
      if |previousMultipliers| > HISTORY_LIMIT {
        previousMultipliers := previousMultipliers[..|previousMultipliers| - 1];
      }
      previousMultipliers := [info] + previousMultipliers;
    }

    /** The data a newly connected client receives. */
    method OnConnectionData() returns (bets: seq<BetInMemory>, history: seq<Session.PreviousMultiplier>)
      ensures bets == gameSession.sessionData.bets && history == previousMultipliers
    {
      bets := gameSession.sessionData.bets;
      history := previousMultipliers;
    }

    /** One multiplier tick of the round; a crash emits the session-end
        event, which this manager's listener records in the history. */
    method MultiplierTick(nextSessionId: string)
      requires Valid() && gameSession.multiplierGenerator.multiplierData.finalCrashPoint.Some?
      modifies this, gameSession, gameSession.multiplierGenerator, gameSession.db
      ensures Valid() && gameSession.MultiplierIncremented(nextSessionId)
      ensures var m := Session.Grow(old(gameSession.sessionData.currentMultiplier));
        var crashPoint := old(gameSession.multiplierGenerator.multiplierData.finalCrashPoint.value);
        previousMultipliers ==
          if Money.AtLeast(m, crashPoint)
          then History.PushBounded(old(previousMultipliers),
                                   Session.PreviousMultiplier(crashPoint, old(gameSession.sessionData.sessionId)),
                                   HISTORY_LIMIT)
          else old(previousMultipliers)
      ensures emits == old(emits)
    {
      var ended := gameSession.IncrementMultiplier(nextSessionId);
      if ended.Some? {
        OnSessionEnd(ended.value);
      }
    }

    /** `handlePlaceBet`: gate on the betting phase, validate, submit and
        wait; a placed bet joins the round in memory and offers no client
        seed. Exactly one emit answers the request. */
    method HandlePlaceBet(p: BettingPayload)
      requires Valid()
      modifies this, gameSession, queuesManager, gameSession.db
      ensures Valid()
      ensures var sessionId := old(gameSession.sessionData.sessionId);
        var ledger := RunOps(old(gameSession.db.state), sessionId, BetOps(old(queuesManager.bettingQueue)));
        var r := BetRequestResult(old(gameSession.sessionData.gamePhase), p, limits,
                                  |old(queuesManager.bettingQueue)|, ledger, sessionId);
        && emits == old(emits) + [BetEmit(p.buttonId, r)]
        && gameSession.sessionData ==
             (if r.Success?
              then old(gameSession.sessionData).(bets := old(gameSession.sessionData.bets)
                     + [BetInMemory(r.value.userId, r.value.username, r.value.stake, None, None)])
              else old(gameSession.sessionData))
        && (r.Success? ==> gameSession.db.state == PlaceBetTx(ledger, sessionId, BetData(p, limits)).state)
      ensures old(gameSession.sessionData.gamePhase) != BETTING || ValidateBetPayload(p, limits).Some? ==>
        gameSession.db.state == old(gameSession.db.state) && queuesManager.bettingQueue == old(queuesManager.bettingQueue)
      ensures old(gameSession.sessionData.gamePhase) == BETTING && ValidateBetPayload(p, limits).None? ==>
        var sessionId := old(gameSession.sessionData.sessionId);
        var ledger := RunOps(old(gameSession.db.state), sessionId, BetOps(old(queuesManager.bettingQueue)));
        if ValidateQueueSize(|old(queuesManager.bettingQueue)|).None?
        then gameSession.db.state == PlaceBetTx(ledger, sessionId, BetData(p, limits)).state
             && queuesManager.bettingQueue == []
        else gameSession.db.state == old(gameSession.db.state)
             && queuesManager.bettingQueue == old(queuesManager.bettingQueue)
      ensures queuesManager.cashoutQueue == old(queuesManager.cashoutQueue)
      ensures gameSession.broadcasts == old(gameSession.broadcasts) && gameSession.intervals == old(gameSession.intervals)
      ensures gameSession.timeouts == old(gameSession.timeouts)
      ensures gameSession.timeToNextSession == old(gameSession.timeToNextSession)
      ensures previousMultipliers == old(previousMultipliers)
    {
      if gameSession.sessionData.gamePhase != BETTING {
        emits := emits + [PlacebetError(p.buttonId, NOT_BETTING_PHASE)];
        return;
      }
      var invalid := ValidateBetPayload(p, limits);
      if invalid.Some? {
        emits := emits + [PlacebetError(p.buttonId, invalid.value.description)];
        return;
      }
      var data := BetData(p, limits);
      var result := queuesManager.SubmitBetAndWait(data);
      if result.Failure? {
        emits := emits + [PlacebetError(p.buttonId, result.error.description)];
        return;
      }
      var placed := result.value;
      gameSession.AddPlayerToSession(BetInMemory(placed.userId, placed.username, placed.stake, None, None));
      gameSession.UpdateSessionClientSeed(Session.SeedContribution(None, placed.username));
      emits := emits + [PlacebetSuccess(p.buttonId, placed.betId, placed.accountBalance)];
    }

    /** `handleCashout`: gate on the running phase, validate, round the live
        multiplier to hundredths, submit and wait. Exactly one emit answers
        the request; the round in memory is not touched. */
    method HandleCashout(p: CashoutPayload)
      requires Valid()
      modifies this, queuesManager, gameSession.db
      ensures Valid()
      ensures var sessionId := gameSession.sessionData.sessionId;
        var ledger := RunOps(old(gameSession.db.state), sessionId, CashoutOps(old(queuesManager.cashoutQueue)));
        var r := CashoutRequestResult(gameSession.sessionData.gamePhase, p,
                                      gameSession.sessionData.currentMultiplier, ledger, sessionId);
        && emits == old(emits) + [CashoutEmit(p.buttonId, r)]
        && (r.Success? ==> gameSession.db.state == CashoutTx(ledger, sessionId,
              CashoutDataToProcess(r.value.cashoutMultiplier, p.betId.s)).state)
      ensures gameSession.sessionData.gamePhase != RUNNING || ValidateCashoutPayload(p).Some? ==>
        gameSession.db.state == old(gameSession.db.state) && queuesManager.cashoutQueue == old(queuesManager.cashoutQueue)
      ensures gameSession.sessionData.gamePhase == RUNNING && ValidateCashoutPayload(p).None? ==>
        var sessionId := gameSession.sessionData.sessionId;
        var ledger := RunOps(old(gameSession.db.state), sessionId, CashoutOps(old(queuesManager.cashoutQueue)));
        && gameSession.db.state
           == CashoutTx(ledger, sessionId,
                        CashoutDataToProcess(Money.RoundRatio(gameSession.sessionData.currentMultiplier), p.betId.s)).state
        && queuesManager.cashoutQueue == []
      ensures queuesManager.bettingQueue == old(queuesManager.bettingQueue)
      ensures previousMultipliers == old(previousMultipliers)
    {
      if gameSession.sessionData.gamePhase != RUNNING {
        emits := emits + [CashoutFailure(p.buttonId, STAGE_TIME_OUT)];
        return;
      }
      var invalid := ValidateCashoutPayload(p);
      if invalid.Some? {
        emits := emits + [CashoutFailure(p.buttonId, invalid.value.description)];
        return;
      }
      var data := CashoutDataToProcess(Money.RoundRatio(gameSession.sessionData.currentMultiplier), p.betId.s);
      var result := queuesManager.SubmitCashoutAndWait(data);
      if result.Failure? {
        emits := emits + [CashoutFailure(p.buttonId, result.error.description)];
        return;
      }
      var settled := result.value;
      emits := emits + [CashoutSuccess(p.buttonId, settled.cashoutMultiplier, settled.payout, settled.accountBalance)];
    }
  }
}
