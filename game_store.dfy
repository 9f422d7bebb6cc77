/** The client's game store: what the client knows of the round (phase,
    live multiplier, crash point, server-seed hash, countdown, bets) and the
    most-recent-first list of previous crash points. The client's numbers
    are exact rationals here. */
module ClientGameStore {

  import opened Common
  import History

  datatype GamePhase = PREPARING | BETTING | RUNNING | CRASHED | MAINTENANCE | ERROR

  datatype Bet = Bet(
    userId: string,
    sessionId: string,
    username: string,
    stake: real,
    cashoutMultiplier: Option<real>,
    payout: Option<real>,
    betId: string)

  datatype PreviousMultiplier = PreviousMultiplier(finalMultiplier: real, sessionId: string)

  datatype GameData = GameData(
    currentMultiplier: real,
    finalMultiplier: Option<real>,
    hashedServerSeed: string,
    gamePhase: GamePhase,
    bets: seq<Bet>,
    previousMultipliers: seq<PreviousMultiplier>,
    nextGameCountDown: Option<real>)

  /** The history keeps at most this many entries before the newest. */
  const HISTORY_LIMIT: nat := 50

  /** The store as the client starts: multiplier 1, PREPARING, nothing
      known yet. */
  function InitialGameData(): (d: GameData)
    ensures d.currentMultiplier == 1.0 && d.gamePhase == PREPARING
    ensures d.bets == [] && d.previousMultipliers == []
    ensures d.finalMultiplier.None? && d.nextGameCountDown.None? && d.hashedServerSeed == ""
  {
    GameData(1.0, None, "", PREPARING, [], [], None)
  }

  /** A partial update: a key is either absent (None) or supplied with its
      new value; the nullable keys can be supplied as null. */
  datatype GamePatch = GamePatch(
    currentMultiplier: Option<real>,
    finalMultiplier: Option<Option<real>>,
    hashedServerSeed: Option<string>,
    gamePhase: Option<GamePhase>,
    bets: Option<seq<Bet>>,
    previousMultipliers: Option<seq<PreviousMultiplier>>,
    nextGameCountDown: Option<Option<real>>)

  function Pick<T>(supplied: Option<T>, current: T): T
  {
    if supplied.Some? then supplied.value else current
  }

  /** `{...state, ...patch}`: every supplied key takes the patch's value,
      every other key keeps the store's. */
  function ApplyPatch(d: GameData, patch: GamePatch): (r: GameData)
    ensures patch.currentMultiplier.Some? ==> r.currentMultiplier == patch.currentMultiplier.value
    ensures patch.currentMultiplier.None? ==> r.currentMultiplier == d.currentMultiplier
    ensures patch.finalMultiplier.Some? ==> r.finalMultiplier == patch.finalMultiplier.value
    ensures patch.finalMultiplier.None? ==> r.finalMultiplier == d.finalMultiplier
    ensures patch.hashedServerSeed.Some? ==> r.hashedServerSeed == patch.hashedServerSeed.value
    ensures patch.hashedServerSeed.None? ==> r.hashedServerSeed == d.hashedServerSeed
    ensures patch.gamePhase.Some? ==> r.gamePhase == patch.gamePhase.value
    ensures patch.gamePhase.None? ==> r.gamePhase == d.gamePhase
    ensures patch.bets.Some? ==> r.bets == patch.bets.value
    ensures patch.bets.None? ==> r.bets == d.bets
    ensures patch.previousMultipliers.Some? ==> r.previousMultipliers == patch.previousMultipliers.value
    ensures patch.previousMultipliers.None? ==> r.previousMultipliers == d.previousMultipliers
    ensures patch.nextGameCountDown.Some? ==> r.nextGameCountDown == patch.nextGameCountDown.value
    ensures patch.nextGameCountDown.None? ==> r.nextGameCountDown == d.nextGameCountDown
  {
    GameData(
      Pick(patch.currentMultiplier, d.currentMultiplier),
      Pick(patch.finalMultiplier, d.finalMultiplier),
      Pick(patch.hashedServerSeed, d.hashedServerSeed),
      Pick(patch.gamePhase, d.gamePhase),
      Pick(patch.bets, d.bets),
      Pick(patch.previousMultipliers, d.previousMultipliers),
      Pick(patch.nextGameCountDown, d.nextGameCountDown))
  }

  /** Applying the same partial update twice is applying it once, and the
      empty update changes nothing. */
  lemma ApplyPatchIdempotent(d: GameData, patch: GamePatch)
    ensures ApplyPatch(ApplyPatch(d, patch), patch) == ApplyPatch(d, patch)
    ensures ApplyPatch(d, GamePatch(None, None, None, None, None, None, None)) == d
  {
  }

  class GameStore {
    var state: GameData

    constructor ()
      ensures state == InitialGameData()
    {
      state := InitialGameData();
    }

    method UpdateCurrentMultiplier(updatedMultiplier: real)
      modifies this
      ensures state == old(state).(currentMultiplier := updatedMultiplier)
    {
      state := state.(currentMultiplier := updatedMultiplier);
    }

    method UpdateHashedServerSeed(updatedSeed: string)
      modifies this
      ensures state == old(state).(hashedServerSeed := updatedSeed)
    {
      state := state.(hashedServerSeed := updatedSeed);
    }

    method UpdateGamePhase(updatedGamePhase: GamePhase)
      modifies this
      ensures state == old(state).(gamePhase := updatedGamePhase)
    {
      state := state.(gamePhase := updatedGamePhase);
    }

    method UpdateBets(updatedBets: seq<Bet>)
      modifies this
      ensures state == old(state).(bets := updatedBets)
    {
      state := state.(bets := updatedBets);
    }

    method UpdateNextGameCountDown(newCountDown: Option<real>)
      modifies this
      ensures state == old(state).(nextGameCountDown := newCountDown)
    {
      state := state.(nextGameCountDown := newCountDown);
    }

    method UpdateFinalMultiplier(newFinalMultiplier: Option<real>)
      modifies this
      ensures state == old(state).(finalMultiplier := newFinalMultiplier)
    {
      state := state.(finalMultiplier := newFinalMultiplier);
    }

    /** Drop the oldest entry once more than 50 are kept, then put the new
        one first; the others keep their order. */
    method UpdatePreviousMultipliers(newMultiplier: PreviousMultiplier)
      modifies this
      ensures state == old(state).(previousMultipliers :=
                History.PushBounded(old(state.previousMultipliers), newMultiplier, HISTORY_LIMIT))
      ensures state.previousMultipliers[0] == newMultiplier
      ensures state.previousMultipliers[1..] <= old(state.previousMultipliers)
      ensures |old(state.previousMultipliers)| <= HISTORY_LIMIT + 1 ==>
                |state.previousMultipliers| <= HISTORY_LIMIT + 1
    {
      var previousMultipliers := state.previousMultipliers;
      if |previousMultipliers| > HISTORY_LIMIT {
        previousMultipliers := previousMultipliers[..|previousMultipliers| - 1];
      }
      previousMultipliers := [newMultiplier] + previousMultipliers;
      state := state.(previousMultipliers := previousMultipliers);
    }

    /** `updateMany`: overwrite exactly the supplied keys. */
    method UpdateMany(patch: GamePatch)
      modifies this
      ensures state == ApplyPatch(old(state), patch)
    {
      state := ApplyPatch(state, patch);
    }
  }
}
