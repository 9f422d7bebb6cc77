/** The persisted collections the game reads and writes inside transactions:
    users with their balances, the bet history and the per-round analytics
    records. The store is a value; the `Database` object holds the committed
    value, and a transaction commits by replacing it in one assignment. */
module Store {

  import opened Common
  import SessionAnalytics
  import Text

  datatype BetState = CASHEDOUT | ACTIVE | BUSTED | REFUNDED

  /** A bet history document. Stakes, payouts and the cashout multiplier are
      in hundredths. */
  datatype BetRecord = BetRecord(
    userId: string,
    sessionId: string,
    stake: int,
    status: BetState,
    cashoutMultiplier: Option<int>,
    payout: Option<int>)

  datatype UserRecord = UserRecord(username: string, balance: int)

  /** The bet at index i has the identifier BetId(i). */
  datatype DbState = DbState(
    users: map<string, UserRecord>,
    bets: seq<BetRecord>,
    analytics: map<string, SessionAnalytics.AnalyticsRecord>)

  function BetId(i: nat): (id: string)
    ensures id != ""
  {
    Text.DecimalText(i)
  }

  /** Distinct bets have distinct identifiers. */
  lemma BetIdInjective(i: nat, j: nat)
    requires BetId(i) == BetId(j)
    ensures i == j
  {
    Text.DecimalTextInjective(i, j);
  }

  /** `findOne({ _id: betId, sessionId })`: the bet with that identifier,
      provided it belongs to the given round. */
  function FindBet(bets: seq<BetRecord>, betId: string, sessionId: string): (r: Option<nat>)
    ensures r.Some? ==> r.value < |bets| && BetId(r.value) == betId && bets[r.value].sessionId == sessionId
    ensures r.None? ==> forall i: nat :: i < |bets| && BetId(i) == betId ==> bets[i].sessionId != sessionId
  {
    match Text.ParseDecimal(betId)
    case None =>
      assert forall i: nat :: BetId(i) != betId by {
        forall i: nat ensures BetId(i) != betId {
          Text.ParseDecimalText(i);
        }
      }
      None
    case Some(i) =>
      assert forall j: nat :: BetId(j) == betId ==> j == i by {
        forall j: nat | BetId(j) == betId ensures j == i {
          BetIdInjective(i, j);
        }
      }
      if i < |bets| && bets[i].sessionId == sessionId then Some(i) else None
  }

  /** A bet's status only ever leaves ACTIVE: a settled bet stays settled. */
  predicate LegalStatusChange(before: BetState, after: BetState)
  {
    before == after || before == ACTIVE
  }

  /** How the bet history may evolve: bets are never removed, and existing
      bets keep their owner, round and stake and change status only legally. */
  predicate BetsEvolve(before: seq<BetRecord>, after: seq<BetRecord>)
  {
    && |before| <= |after|
    && (forall i :: 0 <= i < |before| ==>
          && after[i].userId == before[i].userId
          && after[i].sessionId == before[i].sessionId
          && after[i].stake == before[i].stake
          && LegalStatusChange(before[i].status, after[i].status))
  }

  lemma BetsEvolveTransitive(a: seq<BetRecord>, b: seq<BetRecord>, c: seq<BetRecord>)
    requires BetsEvolve(a, b) && BetsEvolve(b, c)
    ensures BetsEvolve(a, c)
  {
  }

  /** The committed contents of the database. */
  class Database {
    var state: DbState

    constructor (initial: DbState)
      ensures state == initial
    {
      state := initial;
    }
  }
}
