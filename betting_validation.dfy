/** Validation of the bet and cashout request payloads, as their object
    schemas check them: each key in schema order, the first failing rule's
    message reported. Payload values are JavaScript values; numbers are
    exact rationals, the configured stake bounds are in hundredths. */
module Validation {

  import opened Common
  import opened Errors
  import Text

  /** A JavaScript value as it arrives in a payload. */
  datatype JsValue = Undefined | Null | Bool(b: bool) | Num(n: real) | NaN | Str(s: string) | Obj

  /** JavaScript truthiness: `!v` is false. */
  predicate Truthy(v: JsValue)
  {
    match v
    case Undefined => false
    case Null => false
    case Bool(b) => b
    case Num(n) => n != 0.0
    case NaN => false
    case Str(s) => s != ""
    case Obj => true
  }

  datatype BettingPayload = BettingPayload(userId: JsValue, stake: JsValue, buttonId: JsValue)

  datatype CashoutPayload = CashoutPayload(betId: JsValue, buttonId: JsValue)

  /** The game configuration's stake bounds, in hundredths. */
  datatype StakeLimits = StakeLimits(minStake: nat, maxStake: nat)

  /** The text `${x}` gives for an amount of h hundredths. */
  function AmountText(h: nat): string
  {
    var cents := h % 100;
    Text.DecimalText(h / 100)
    + (if cents == 0 then ""
       else if cents % 10 == 0 then "." + [Text.DigitChar(cents / 10)]
       else "." + [Text.DigitChar(cents / 10), Text.DigitChar(cents % 10)])
  }

  /** A whole number of hundredths. */
  predicate AtMostTwoDecimals(x: real)
  {
    (x * 100.0).Floor as real == x * 100.0
  }

  /** The stake's rules: required, a number, greater than MIN_STAKE - 1, at
      most MAX_STAKE, at most two decimals. */
  function StakeError(v: JsValue, limits: StakeLimits): (e: Option<string>)
    ensures e.None? <==> v.Num? && v.n * 100.0 > (limits.minStake - 100) as real
                         && v.n * 100.0 <= limits.maxStake as real && AtMostTwoDecimals(v.n)
  {
    match v
    case Undefined => Some("Stake is required")
    case Num(x) =>
      if !(x * 100.0 > (limits.minStake - 100) as real) then Some("Minimum bet amount is " + AmountText(limits.minStake))
      else if x * 100.0 > limits.maxStake as real then Some("Maximum bet amount is " + AmountText(limits.maxStake))
      else if !AtMostTwoDecimals(x) then Some("Stake must have at most 2 decimal places")
      else None
    case _ => Some("Stake must be a number")
  }

  /** A required, non-empty string. */
  function RequiredStringError(v: JsValue, key: string, required: string, notString: string): (e: Option<string>)
    ensures e.None? <==> v.Str? && v.s != ""
  {
    match v
    case Undefined => Some(required)
    case Str(s) => if s == "" then Some("\"" + key + "\" is not allowed to be empty") else None
    case _ => Some(notString)
  }

  /** A required number. */
  function RequiredNumberError(v: JsValue, required: string, notNumber: string): (e: Option<string>)
    ensures e.None? <==> v.Num?
  {
    match v
    case Undefined => Some(required)
    case Num(_) => None
    case _ => Some(notNumber)
  }

  /** The first message of the bet schema: stake, then userId, then buttonId. */
  function BetSchemaError(p: BettingPayload, limits: StakeLimits): (e: Option<string>)
    ensures e.None? <==> && StakeError(p.stake, limits).None?
                         && p.userId.Str? && p.userId.s != ""
                         && p.buttonId.Num?
  {
    var stake := StakeError(p.stake, limits);
    if stake.Some? then stake
    else
      var userId := RequiredStringError(p.userId, "userId", "User ID is required", "User ID must be a string");
      if userId.Some? then userId
      else RequiredNumberError(p.buttonId, "Button Id is required", "\"buttonId\" must be a number")
  }

  const BETTING_FALLBACK_MESSAGE := "An error occurred during betting"

  /** `validateBetPayload`: nothing for a valid payload; otherwise a
      BettingError carrying the schema's message as its internal details and
      shown to the caller only when the payload has a (truthy) user id. */
  function ValidateBetPayload(p: BettingPayload, limits: StakeLimits): (r: Option<AppError>)
    ensures r.None? <==> && p.stake.Num? && p.stake.n * 100.0 > (limits.minStake - 100) as real
                         && p.stake.n * 100.0 <= limits.maxStake as real && AtMostTwoDecimals(p.stake.n)
                         && p.userId.Str? && p.userId.s != "" && p.buttonId.Num?
    ensures r.Some? ==>
      && r.value.name == BettingError
      && r.value.internalDetails == BetSchemaError(p, limits)
      && r.value.description == if Truthy(p.userId) then r.value.internalDetails.value else BETTING_FALLBACK_MESSAGE
  {
    match BetSchemaError(p, limits)
    case None => None
    case Some(message) =>
      var description := if !Truthy(p.userId) then BETTING_FALLBACK_MESSAGE else message;
      Some(AppError(BettingError, description, Some(message)))
  }

  /** The first message of the cashout schema: betId, then buttonId. */
  function CashoutSchemaError(p: CashoutPayload): (e: Option<string>)
    ensures e.None? <==> p.betId.Str? && p.betId.s != "" && p.buttonId.Num?
  {
    var betId := RequiredStringError(p.betId, "betId", "Bet ID is required", "Bet ID must be a string");
    if betId.Some? then betId
    else RequiredNumberError(p.buttonId, "Button Id is required", "Button Id  must be a number")
  }

  /** `validateCashoutPayload`: a CashoutError built from internal details
      only, so the caller sees the default cashout message. */
  function ValidateCashoutPayload(p: CashoutPayload): (r: Option<AppError>)
    ensures r.None? <==> p.betId.Str? && p.betId.s != "" && p.buttonId.Num?
    ensures r.Some? ==> r.value == WithDetails(CashoutError, CashoutSchemaError(p).value)
    ensures r.Some? ==> r.value.description == "Unable to process cashout"
  {
    match CashoutSchemaError(p)
    case None => None
    case Some(message) => Some(WithDetails(CashoutError, message))
  }

  /** The stake of a valid payload in hundredths, and it lies in
      (MIN_STAKE - 1, MAX_STAKE]. */
  function StakeHundredths(p: BettingPayload, limits: StakeLimits): (h: int)
    requires ValidateBetPayload(p, limits).None?
    ensures h as real == p.stake.n * 100.0
    ensures limits.minStake - 100 < h <= limits.maxStake
  {
    (p.stake.n * 100.0).Floor
  }

  /** A payload without a user id always gets the fallback message. */
  lemma MissingUserIdGetsFallback(p: BettingPayload, limits: StakeLimits)
    requires !Truthy(p.userId)
    ensures ValidateBetPayload(p, limits).Some?
    ensures ValidateBetPayload(p, limits).value.description == BETTING_FALLBACK_MESSAGE
  {
  }
}
