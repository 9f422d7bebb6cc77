/** The betting ledger: the two all-or-nothing transactions on the store,
    placing a bet (debit the stake, record an ACTIVE bet) and cashing one
    out (credit the payout, settle the bet, add the payout to the round's
    cashout total). Each transaction is a function from the committed state
    to its result and the state it would commit; `WithTransaction` commits
    that state only when the result is a success. */
module Ledger {

  import opened Common
  import opened Errors
  import Money
  import opened Store
  import Session

  datatype BettingDataToProcess = BettingDataToProcess(stake: int, userId: string)

  datatype BettingResult = BettingResult(
    betId: string, stake: int, accountBalance: int, username: string, userId: string)

  /** The multiplier is in hundredths. */
  datatype CashoutDataToProcess = CashoutDataToProcess(cashoutMultiplier: int, betId: string)

  datatype CashoutResult = CashoutResult(betId: string, cashoutMultiplier: int, payout: int, accountBalance: int)

  /** A transaction's result and the state it would commit. */
  datatype TxOutcome<T> = TxOutcome(result: Result<T>, state: DbState)

  /** Commit on success, abort (keep the committed state) on any error. */
  function WithTransaction<T>(committed: DbState, attempt: TxOutcome<T>): (o: TxOutcome<T>)
    ensures o.result == attempt.result
    ensures o.result.Failure? ==> o.state == committed
    ensures o.result.Success? ==> o.state == attempt.state
  {
    if attempt.result.Success? then attempt else TxOutcome(attempt.result, committed)
  }

  /** The body of the bet transaction: a missing user, then a stake above the
      balance, is refused; otherwise the stake is debited and a new ACTIVE bet
      with payout 0 is appended for the current round. */
  function PlaceBetBody(s: DbState, sessionId: string, data: BettingDataToProcess): TxOutcome<BettingResult>
  {
    if data.userId !in s.users then
      TxOutcome(Failure(WithDescription(BettingError, USER_NOT_FOUND)), s)
    else
      var user := s.users[data.userId];
      if data.stake > user.balance then
        TxOutcome(Failure(WithDescription(BettingError, INSUFFICIENT_BALANCE)), s)
      else
        var balance := user.balance - data.stake;
        var bet := BetRecord(data.userId, sessionId, data.stake, ACTIVE, None, Some(0));
        TxOutcome(Success(BettingResult(BetId(|s.bets|), data.stake, balance, user.username, data.userId)),
                  s.(users := s.users[data.userId := user.(balance := balance)], bets := s.bets + [bet]))
  }

  /** `placeBet`: the committed outcome of the bet transaction. */
  function PlaceBetTx(s: DbState, sessionId: string, data: BettingDataToProcess): (o: TxOutcome<BettingResult>)
    ensures data.userId !in s.users ==>
      o == TxOutcome(Failure(WithDescription(BettingError, USER_NOT_FOUND)), s)
    ensures data.userId in s.users && data.stake > s.users[data.userId].balance ==>
      o == TxOutcome(Failure(WithDescription(BettingError, INSUFFICIENT_BALANCE)), s)
    ensures o.result.Success? <==> data.userId in s.users && data.stake <= s.users[data.userId].balance
    ensures o.result.Success? ==>
      var before := s.users[data.userId];
      && o.state.users == s.users[data.userId := before.(balance := before.balance - data.stake)]
      && o.state.bets == s.bets + [BetRecord(data.userId, sessionId, data.stake, ACTIVE, None, Some(0))]
      && o.state.analytics == s.analytics
      && o.result.value == BettingResult(BetId(|s.bets|), data.stake, before.balance - data.stake,
                                         before.username, data.userId)
      && o.state.users[data.userId].balance >= 0
    ensures BetsEvolve(s.bets, o.state.bets) && o.state.users.Keys == s.users.Keys
  {
    WithTransaction(s, PlaceBetBody(s, sessionId, data))
  }

  /** `(multiplier * stake).toFixed(2)` with both factors in hundredths. */
  function Payout(cashoutMultiplier: int, stake: int): (p: int)
    ensures cashoutMultiplier * stake >= 0 ==> p >= 0
    ensures var exact := cashoutMultiplier * stake;
      exact >= 0 ==> 0 - 100 < 2 * (p * 100 - exact) <= 100
  {
    Money.Round(cashoutMultiplier * stake, 100)
  }

  /** The body of the cashout transaction: the bet must exist in the current
      round, be ACTIVE and belong to an existing user; then the bet is settled
      CASHEDOUT, the payout credited and added to the round's total. */
  function CashoutBody(s: DbState, sessionId: string, data: CashoutDataToProcess): TxOutcome<CashoutResult>
  {
    match FindBet(s.bets, data.betId, sessionId)
    case None => TxOutcome(Failure(WithDescription(CashoutError, BET_NOT_FOUND)), s)
    case Some(i) =>
      var bet := s.bets[i];
      if bet.status != ACTIVE then
        TxOutcome(Failure(WithDescription(CashoutError, BET_ALREADY_SETTLED)), s)
      else if bet.userId !in s.users then
        TxOutcome(Failure(WithDescription(CashoutError, USER_NOT_FOUND)), s)
      else
        var payout := Payout(data.cashoutMultiplier, bet.stake);
        var user := s.users[bet.userId];
        var settled := bet.(payout := Some(payout), status := CASHEDOUT,
                            cashoutMultiplier := Some(data.cashoutMultiplier));
        var analytics := if sessionId in s.analytics
          then s.analytics[sessionId := s.analytics[sessionId].(
                 totalCashoutAmount := s.analytics[sessionId].totalCashoutAmount + payout)]
          else s.analytics;
        TxOutcome(Success(CashoutResult(data.betId, data.cashoutMultiplier, payout, user.balance + payout)),
                  DbState(s.users[bet.userId := user.(balance := user.balance + payout)],
                          s.bets[i := settled], analytics))
  }

  /** `cashout`: the committed outcome of the cashout transaction. */
  function CashoutTx(s: DbState, sessionId: string, data: CashoutDataToProcess): (o: TxOutcome<CashoutResult>)
    ensures FindBet(s.bets, data.betId, sessionId).None? ==>
      o == TxOutcome(Failure(WithDescription(CashoutError, BET_NOT_FOUND)), s)
    ensures FindBet(s.bets, data.betId, sessionId).Some? && s.bets[FindBet(s.bets, data.betId, sessionId).value].status != ACTIVE ==>
      o == TxOutcome(Failure(WithDescription(CashoutError, BET_ALREADY_SETTLED)), s)
    ensures FindBet(s.bets, data.betId, sessionId).Some? && s.bets[FindBet(s.bets, data.betId, sessionId).value].status == ACTIVE
            && s.bets[FindBet(s.bets, data.betId, sessionId).value].userId !in s.users ==>
      o == TxOutcome(Failure(WithDescription(CashoutError, USER_NOT_FOUND)), s)
    ensures o.result.Failure? ==> o.state == s
    ensures o.result.Success? <==>
      && FindBet(s.bets, data.betId, sessionId).Some?
      && s.bets[FindBet(s.bets, data.betId, sessionId).value].status == ACTIVE
      && s.bets[FindBet(s.bets, data.betId, sessionId).value].userId in s.users
    ensures o.result.Success? ==>
      var i := FindBet(s.bets, data.betId, sessionId).value;
      var bet := s.bets[i];
      var payout := Payout(data.cashoutMultiplier, bet.stake);
      && bet.status == ACTIVE && bet.userId in s.users
      && o.result.value == CashoutResult(data.betId, data.cashoutMultiplier, payout,
                                         s.users[bet.userId].balance + payout)
      && o.state.bets == s.bets[i := bet.(status := CASHEDOUT, payout := Some(payout),
                                          cashoutMultiplier := Some(data.cashoutMultiplier))]
      && o.state.users == s.users[bet.userId := s.users[bet.userId].(balance := s.users[bet.userId].balance + payout)]
      && o.state.analytics
         == if sessionId in s.analytics
            then s.analytics[sessionId := s.analytics[sessionId].(
                   totalCashoutAmount := s.analytics[sessionId].totalCashoutAmount + payout)]
            else s.analytics
    ensures BetsEvolve(s.bets, o.state.bets) && o.state.users.Keys == s.users.Keys
  {
    WithTransaction(s, CashoutBody(s, sessionId, data))
  }

  /** A bet that was cashed out cannot be cashed out again: the second
      attempt is refused as already settled and changes nothing. */
  lemma {:induction false} SecondCashoutFails(s: DbState, sessionId: string, first: CashoutDataToProcess,
                                              second: CashoutDataToProcess)
    requires first.betId == second.betId
    requires CashoutTx(s, sessionId, first).result.Success?
    ensures var s' := CashoutTx(s, sessionId, first).state;
      CashoutTx(s', sessionId, second) == TxOutcome(Failure(WithDescription(CashoutError, BET_ALREADY_SETTLED)), s')
  {
    var i := FindBet(s.bets, first.betId, sessionId).value;
    var s' := CashoutTx(s, sessionId, first).state;
    var j := FindBet(s'.bets, second.betId, sessionId);
    assert s'.bets[i].sessionId == sessionId;
    if j.None? {
      assert false;
    }
    BetIdInjective(i, j.value);
  }

  /** A request to the ledger, as the queues submit them. */
  datatype LedgerOp = PlaceBetOp(bet: BettingDataToProcess) | CashoutOp(cashout: CashoutDataToProcess)

  /** The state committed by one request. */
  function Step(s: DbState, sessionId: string, op: LedgerOp): DbState
  {
    match op
    case PlaceBetOp(d) => PlaceBetTx(s, sessionId, d).state
    case CashoutOp(d) => CashoutTx(s, sessionId, d).state
  }

  /** What one request does to a user's balance, read off its result: minus
      the stake of a placed bet, plus the payout of a cashout of that user's
      bet, nothing for a refused request. */
  function Effect(s: DbState, sessionId: string, op: LedgerOp, userId: string): int
  {
    match op
    case PlaceBetOp(d) =>
      var o := PlaceBetTx(s, sessionId, d);
      if o.result.Success? && o.result.value.userId == userId then 0 - d.stake else 0
    case CashoutOp(d) =>
      var o := CashoutTx(s, sessionId, d);
      if o.result.Success? && s.bets[FindBet(s.bets, d.betId, sessionId).value].userId == userId
      then o.result.value.payout else 0
  }

  /** The requests processed one after another. */
  function RunOps(s: DbState, sessionId: string, ops: seq<LedgerOp>): (r: DbState)
    ensures BetsEvolve(s.bets, r.bets) && r.users.Keys == s.users.Keys
    decreases |ops|
  {
    if ops == [] then s
    else
      var before := RunOps(s, sessionId, ops[..|ops| - 1]);
      var after := Step(before, sessionId, ops[|ops| - 1]);
      BetsEvolveTransitive(s.bets, before.bets, after.bets);
      after
  }

  /** The total of the effects along the run: payouts received minus stakes
      placed by the user. */
  function NetEffect(s: DbState, sessionId: string, ops: seq<LedgerOp>, userId: string): int
    decreases |ops|
  {
    if ops == [] then 0
    else
      NetEffect(s, sessionId, ops[..|ops| - 1], userId)
      + Effect(RunOps(s, sessionId, ops[..|ops| - 1]), sessionId, ops[|ops| - 1], userId)
  }

  /** One request changes the user's balance by exactly its effect. */
  lemma StepEffect(s: DbState, sessionId: string, op: LedgerOp, userId: string)
    requires userId in s.users
    ensures Step(s, sessionId, op).users[userId].balance == s.users[userId].balance + Effect(s, sessionId, op, userId)
  {
  }

  /** Balance conservation: after any sequence of requests, a user's balance
      is the starting balance minus the stakes of the bets placed plus the
      payouts of the cashouts made. */
  lemma {:induction false} BalanceConservation(s: DbState, sessionId: string, ops: seq<LedgerOp>, userId: string)
    requires userId in s.users
    ensures RunOps(s, sessionId, ops).users[userId].balance
            == s.users[userId].balance + NetEffect(s, sessionId, ops, userId)
    decreases |ops|
  {
    if ops != [] {
      BalanceConservation(s, sessionId, ops[..|ops| - 1], userId);
      StepEffect(RunOps(s, sessionId, ops[..|ops| - 1]), sessionId, ops[|ops| - 1], userId);
    }
  }

  /** Balances are non-negative and recorded stakes are non-negative. */
  predicate Solvent(s: DbState)
  {
    && (forall u :: u in s.users ==> s.users[u].balance >= 0)
    && (forall i :: 0 <= i < |s.bets| ==> s.bets[i].stake >= 0)
  }

  /** Requests with non-negative stakes and multipliers. The live multiplier
      is always positive; validation keeps stakes above MIN_STAKE - 1, which
      is non-negative only when MIN_STAKE is at least 1. */
  predicate WellFormed(op: LedgerOp)
  {
    match op
    case PlaceBetOp(d) => d.stake >= 0
    case CashoutOp(d) => d.cashoutMultiplier >= 0
  }

  lemma StepSolvent(s: DbState, sessionId: string, op: LedgerOp)
    requires Solvent(s) && WellFormed(op)
    ensures Solvent(Step(s, sessionId, op))
  {
    match op
    case PlaceBetOp(d) =>
    case CashoutOp(d) =>
      var o := CashoutTx(s, sessionId, d);
      if o.result.Success? {
        var i := FindBet(s.bets, d.betId, sessionId).value;
        assert s.bets[i].stake >= 0;
        assert d.cashoutMultiplier * s.bets[i].stake >= 0;
      }
  }

  /** No sequence of well-formed requests makes a balance negative. */
  lemma {:induction false} NeverNegative(s: DbState, sessionId: string, ops: seq<LedgerOp>)
    requires Solvent(s)
    requires forall k :: 0 <= k < |ops| ==> WellFormed(ops[k])
    ensures Solvent(RunOps(s, sessionId, ops))
    decreases |ops|
  {
    if ops != [] {
      NeverNegative(s, sessionId, ops[..|ops| - 1]);
      StepSolvent(RunOps(s, sessionId, ops[..|ops| - 1]), sessionId, ops[|ops| - 1]);
    }
  }

  /** The ledger service; it reads the current round's id from the session
      manager and runs each transaction against the database. */
  class BettingManager {
    const gameSession: Session.GameSessionManager
    const db: Database

    constructor (gameSession: Session.GameSessionManager, db: Database)
      ensures this.gameSession == gameSession && this.db == db
    {
      this.gameSession := gameSession;
      this.db := db;
    }

    method PlaceBet(data: BettingDataToProcess) returns (r: Result<BettingResult>)
      modifies db
      ensures var o := PlaceBetTx(old(db.state), gameSession.sessionData.sessionId, data);
        r == o.result && db.state == o.state
    {
      var o := PlaceBetBody(db.state, gameSession.sessionData.sessionId, data);
      if o.result.Success? {
        db.state := o.state;
      }
      r := o.result;
    }

    method Cashout(data: CashoutDataToProcess) returns (r: Result<CashoutResult>)
      modifies db
      ensures var o := CashoutTx(old(db.state), gameSession.sessionData.sessionId, data);
        r == o.result && db.state == o.state
    {
      var o := CashoutBody(db.state, gameSession.sessionData.sessionId, data);
      if o.result.Success? {
        db.state := o.state;
      }
      r := o.result;
    }
  }
}
