/** The client's bet store, one per bet button: the stake, the placed bet's
    id, the request-in-flight flag, the schedule and auto-play flags, and the
    rules that decide which bet actions the button offers in each phase. */
module ClientBetStore {

  import opened Common
  import opened ClientGameStore

  /** The client configuration's constants. */
  datatype BetConstants = BetConstants(
    minimumStake: real,
    minimumAutoCashoutValue: real,
    defaultAutoCashoutValue: real)

  datatype BetData = BetData(
    stake: real,
    betId: Option<string>,
    isRequesting: bool,
    autoCashoutAt: real,
    autoCashoutHasBeenInitialzed: bool,
    hasScheduledBet: bool,
    hasPlacedBet: bool,
    hasCashedout: bool,
    hasAutoBet: bool,
    hasAutoCashout: bool)

  datatype BetActions = BetActions(
    canPlacebet: bool,
    canScheduleBet: bool,
    canUnscheduleBet: bool,
    canCashout: bool,
    canAutoBet: bool,
    canAutoCashout: bool)

  datatype ActionDisabledState = ActionDisabledState(isButtonDisabled: bool, areOtherActionsDisabled: bool)

  /** A fresh button: the minimum stake, the default auto-cashout value, no
      bet and every flag off. */
  function InitialBetData(c: BetConstants): (d: BetData)
    ensures d.stake == c.minimumStake && d.autoCashoutAt == c.defaultAutoCashoutValue && d.betId.None?
    ensures !d.isRequesting && !d.autoCashoutHasBeenInitialzed && !d.hasScheduledBet && !d.hasPlacedBet
    ensures !d.hasCashedout && !d.hasAutoBet && !d.hasAutoCashout
  {
    BetData(c.minimumStake, None, false, c.defaultAutoCashoutValue, false, false, false, false, false, false)
  }

  /** The button is disabled while the round prepares, while a request is in
      flight and once a bet is placed in the betting phase; the other
      controls also while a bet is scheduled or placed in the running phase. */
  function CalculateActionDisabledState(gamePhase: GamePhase, isRequesting: bool, hasPlacedBet: bool,
                                        hasScheduledBet: bool): (r: ActionDisabledState)
    ensures r.isButtonDisabled ==> r.areOtherActionsDisabled
    ensures gamePhase == PREPARING || isRequesting ==> r.isButtonDisabled && r.areOtherActionsDisabled
    ensures !r.isButtonDisabled <==> gamePhase != PREPARING && !isRequesting && !(gamePhase == BETTING && hasPlacedBet)
    ensures !r.areOtherActionsDisabled <==>
      && !r.isButtonDisabled && !hasScheduledBet && !(gamePhase == RUNNING && hasPlacedBet)
  {
    var isButtonDisabled := gamePhase == PREPARING || isRequesting || (gamePhase == BETTING && hasPlacedBet);
    var areOtherActionsDisabled :=
      || gamePhase == PREPARING
      || isRequesting
      || hasScheduledBet
      || (gamePhase == BETTING && hasPlacedBet)
      || (gamePhase == RUNNING && hasPlacedBet);
    ActionDisabledState(isButtonDisabled, areOtherActionsDisabled)
  }

  /** The actions a button offers: none while a request is in flight;
      otherwise placing a bet in the betting phase, cashing out a placed
      bet while running, scheduling one for the next round while running
      or after the crash, unscheduling a scheduled one, and the two auto
      actions. */
  function CalculateValidBetActions(gamePhase: GamePhase, d: BetData): (a: BetActions)
    ensures d.isRequesting ==> a == BetActions(false, false, false, false, false, false)
    ensures a.canPlacebet ==> gamePhase == BETTING
    ensures a.canCashout ==> gamePhase == RUNNING && d.hasPlacedBet
    ensures !(a.canPlacebet && a.canCashout)
    ensures !(a.canScheduleBet && a.canUnscheduleBet)
    ensures a.canAutoBet ==> a.canPlacebet && d.hasAutoBet
    ensures a.canAutoCashout ==> a.canCashout && d.hasAutoCashout && !d.autoCashoutHasBeenInitialzed
    ensures a.canScheduleBet ==> (gamePhase == RUNNING || gamePhase == CRASHED) && !d.hasPlacedBet
    ensures !d.isRequesting ==>
      && (a.canPlacebet <==> gamePhase == BETTING)
      && (a.canCashout <==> gamePhase == RUNNING && d.hasPlacedBet)
      && (a.canUnscheduleBet <==> d.hasScheduledBet)
  {
    if d.isRequesting then BetActions(false, false, false, false, false, false)
    else
      BetActions(
        canPlacebet := gamePhase == BETTING,
        canScheduleBet := (gamePhase == RUNNING || gamePhase == CRASHED) && !d.hasPlacedBet && !d.hasScheduledBet,
        canUnscheduleBet := d.hasScheduledBet,
        canCashout := gamePhase == RUNNING && d.hasPlacedBet,
        canAutoBet := gamePhase == BETTING && d.hasAutoBet && !d.hasScheduledBet,
        canAutoCashout := gamePhase == RUNNING && d.hasAutoCashout && d.hasPlacedBet && !d.autoCashoutHasBeenInitialzed)
  }

  /** In the betting and running phases an enabled button always has an
      action on offer: placing a bet, cashing it out, or scheduling or
      unscheduling one. */
  lemma EnabledButtonOffersAnAction(gamePhase: GamePhase, d: BetData)
    requires !CalculateActionDisabledState(gamePhase, d.isRequesting, d.hasPlacedBet, d.hasScheduledBet).isButtonDisabled
    requires gamePhase == BETTING || gamePhase == RUNNING
    ensures var a := CalculateValidBetActions(gamePhase, d);
      a.canPlacebet || a.canCashout || a.canScheduleBet || a.canUnscheduleBet
  {
  }

  class BetStore {
    const constants: BetConstants
    var state: BetData

    /** The stake never falls below the minimum. */
    ghost predicate Valid()
      reads this
    {
      state.stake >= constants.minimumStake
    }

    constructor (constants: BetConstants)
      ensures Valid() && this.constants == constants && state == InitialBetData(constants)
    {
      this.constants := constants;
      state := InitialBetData(constants);
    }

    /** `setStake`: an amount that is not a number (or NaN, both None here)
        is ignored; otherwise the stake becomes the amount, raised to the
        minimum. */
    method SetStake(amount: Option<real>)
      requires Valid()
      modifies this
      ensures Valid()
      ensures amount.None? ==> state == old(state)
      ensures amount.Some? ==>
        && state == old(state).(stake := state.stake)
        && state.stake >= constants.minimumStake && state.stake >= amount.value
        && (state.stake == constants.minimumStake || state.stake == amount.value)
    {
      if amount.None? {
        return;
      }
      var stake := if constants.minimumStake >= amount.value then constants.minimumStake else amount.value;
      state := state.(stake := stake);
    }

    method SetHasScheduledBet(status: bool)
      modifies this
      ensures state == old(state).(hasScheduledBet := status)
    {
      state := state.(hasScheduledBet := status);
    }

    method SetHasPlacedBet(status: bool)
      modifies this
      ensures state == old(state).(hasPlacedBet := status)
    {
      state := state.(hasPlacedBet := status);
    }

    method SetHasCashedout(status: bool)
      modifies this
      ensures state == old(state).(hasCashedout := status)
    {
      state := state.(hasCashedout := status);
    }

    method SetIsRequesting(status: bool)
      modifies this
      ensures state == old(state).(isRequesting := status)
    {
      state := state.(isRequesting := status);
    }

    /** The auto-cashout multiplier, raised to the minimum. */
    method SetAutoCashoutAt(autoCashoutMultiplier: real)
      modifies this
      ensures state == old(state).(autoCashoutAt := state.autoCashoutAt)
      ensures state.autoCashoutAt >= constants.minimumAutoCashoutValue
      ensures state.autoCashoutAt >= autoCashoutMultiplier
      ensures state.autoCashoutAt == autoCashoutMultiplier || state.autoCashoutAt == constants.minimumAutoCashoutValue
    {
      var at := if autoCashoutMultiplier >= constants.minimumAutoCashoutValue
                then autoCashoutMultiplier else constants.minimumAutoCashoutValue;
      state := state.(autoCashoutAt := at);
    }

    method SetAutoCashoutHasBeenInitialzed(isInitialized: bool)
      modifies this
      ensures state == old(state).(autoCashoutHasBeenInitialzed := isInitialized)
    {
      state := state.(autoCashoutHasBeenInitialzed := isInitialized);
    }

    method ToggleAutoBet()
      modifies this
      ensures state == old(state).(hasAutoBet := !old(state.hasAutoBet))
    {
      state := state.(hasAutoBet := !state.hasAutoBet);
    }

    method ToggleAutoCashout()
      modifies this
      ensures state == old(state).(hasAutoCashout := !old(state.hasAutoCashout))
    {
      state := state.(hasAutoCashout := !state.hasAutoCashout);
    }

    /** A placed bet: its id is kept, the schedule is consumed and the
        request is over. */
    method OnPlacebetSuccess(betId: string)
      modifies this
      ensures state == old(state).(betId := Some(betId), hasPlacedBet := true,
                                   hasScheduledBet := false, isRequesting := false)
    {
      state := state.(betId := Some(betId), hasPlacedBet := true, hasScheduledBet := false, isRequesting := false);
    }

    method OnPlacebetFailure()
      modifies this
      ensures state == old(state).(hasScheduledBet := false, isRequesting := false)
    {
      state := state.(hasScheduledBet := false, isRequesting := false);
    }

    /** The bet is over either way: no bet, no auto-cashout armed, no request
        in flight. */
    method OnCashoutSuccessOrFailure()
      modifies this
      ensures state == old(state).(autoCashoutHasBeenInitialzed := false, hasPlacedBet := false,
                                   isRequesting := false, betId := None)
    {
      state := state.(autoCashoutHasBeenInitialzed := false, hasPlacedBet := false, isRequesting := false,
                      betId := None);
    }

    /** The round is over: the bet and schedule flags clear; the stake, the
        bet id and the auto settings stay. */
    method ResetBetState()
      modifies this
      ensures state == old(state).(autoCashoutHasBeenInitialzed := false, hasPlacedBet := false,
                                   hasScheduledBet := false, isRequesting := false)
    {
      state := state.(autoCashoutHasBeenInitialzed := false, hasPlacedBet := false, hasScheduledBet := false,
                      isRequesting := false);
    }

    method AreActionsDisabled(gamePhase: GamePhase) returns (r: ActionDisabledState)
      ensures r == CalculateActionDisabledState(gamePhase, state.isRequesting, state.hasPlacedBet, state.hasScheduledBet)
    {
      r := CalculateActionDisabledState(gamePhase, state.isRequesting, state.hasPlacedBet, state.hasScheduledBet);
    }

    method GetValidBetActions(gamePhase: GamePhase) returns (a: BetActions)
      ensures a == CalculateValidBetActions(gamePhase, state)
    {
      a := CalculateValidBetActions(gamePhase, state);
    }
  }

  /** After a cashout, success or failure, no cashout is offered until a new
      bet is placed. */
  lemma NoCashoutAfterCashout(gamePhase: GamePhase, d: BetData)
    ensures !CalculateValidBetActions(gamePhase, d.(autoCashoutHasBeenInitialzed := false, hasPlacedBet := false,
                                                    isRequesting := false, betId := None)).canCashout
  {
  }

  /** While a request is in flight nothing is offered, and a placed bet
      then offers cash-out in the running phase. */
  lemma PlacedBetOffersCashoutWhenRunning(d: BetData, betId: string)
    ensures var placed := d.(betId := Some(betId), hasPlacedBet := true, hasScheduledBet := false, isRequesting := false);
      && CalculateValidBetActions(RUNNING, placed).canCashout
      && !CalculateValidBetActions(RUNNING, placed).canScheduleBet
      && CalculateActionDisabledState(BETTING, false, true, false).isButtonDisabled
  {
  }

  /** Toggling an auto flag twice restores it. */
  lemma ToggleTwiceRestores(d: BetData)
    ensures d.(hasAutoBet := !d.hasAutoBet).(hasAutoBet := !!d.hasAutoBet) == d
    ensures d.(hasAutoCashout := !d.hasAutoCashout).(hasAutoCashout := !!d.hasAutoCashout) == d
  {
  }
}
