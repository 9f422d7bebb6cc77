/** The fallback when a round's analytics cannot be saved: every in-memory
    bet of the round is refunded in its own transaction, in order, and a
    summary of what succeeded and what failed is kept. */
module Refunds {

  import opened Common
  import opened Errors
  import Text
  import opened Store

  /** A bet as the round keeps it in memory. Amounts are in hundredths. */
  datatype BetInMemory = BetInMemory(
    userId: string,
    username: string,
    stake: int,
    cashoutMultiplier: Option<int>,
    payout: Option<int>)

  datatype RefundDetail = RefundDetail(userId: string, amount: int, error: Option<string>)

  datatype RefundStatus = RefundSuccess | RefundPartial | RefundFailed

  datatype RefundsSummary = RefundsSummary(
    status: RefundStatus,
    totalBetAmount: int,
    totalAmountRefunded: int,
    numberOfUsersToRefund: nat,
    numberOfUsersRefunded: nat,
    failedRefunds: seq<RefundDetail>,
    successfulRefunds: seq<RefundDetail>,
    errors: seq<string>,
    message: string)

  function SumAmounts(details: seq<RefundDetail>): int
  {
    if details == [] then 0 else SumAmounts(details[..|details| - 1]) + details[|details| - 1].amount
  }

  predicate ActiveBetOf(b: BetRecord, sessionId: string, userId: string)
  {
    b.sessionId == sessionId && b.status == ACTIVE && b.userId == userId
  }

  /** `updateOne({ sessionId, status: ACTIVE, userId })`: the first matching bet. */
  function FirstActiveBet(bets: seq<BetRecord>, sessionId: string, userId: string, from: nat): (r: Option<nat>)
    requires from <= |bets|
    ensures r.Some? ==> from <= r.value < |bets| && ActiveBetOf(bets[r.value], sessionId, userId)
    ensures r.Some? ==> forall j :: from <= j < r.value ==> !ActiveBetOf(bets[j], sessionId, userId)
    ensures r.None? ==> forall j :: from <= j < |bets| ==> !ActiveBetOf(bets[j], sessionId, userId)
    decreases |bets| - from
  {
    if from == |bets| then None
    else if ActiveBetOf(bets[from], sessionId, userId) then Some(from)
    else FirstActiveBet(bets, sessionId, userId, from + 1)
  }

  /** The refund's "not found" message. */
  function NotFoundForRefund(userId: string): string
  {
    "User " + userId + " not found for refund"
  }

  /** The "not found" message names the user it is about. */
  lemma NotFoundForRefundNamesUser(userId: string)
    ensures var msg := NotFoundForRefund(userId);
      |msg| > 5 + |userId| && msg[5..5 + |userId|] == userId
  {
  }

  datatype RefundStep = RefundStep(error: Option<string>, state: DbState)

  /** One bet's refund transaction: credit the stake and mark one of the
      user's active bets of the round REFUNDED. A missing user or a missing
      active bet aborts it, so the credit and the status change happen
      together or not at all. */
  function RefundTx(s: DbState, sessionId: string, bet: BetInMemory): (t: RefundStep)
    ensures bet.userId !in s.users ==> t == RefundStep(Some(NotFoundForRefund(bet.userId)), s)
    ensures bet.userId in s.users && FirstActiveBet(s.bets, sessionId, bet.userId, 0).None? ==>
      t == RefundStep(Some(DefaultDescription(GameError)), s)
    ensures t.error.None? <==> bet.userId in s.users && FirstActiveBet(s.bets, sessionId, bet.userId, 0).Some?
    ensures t.error.None? ==>
      var i := FirstActiveBet(s.bets, sessionId, bet.userId, 0).value;
      var u := s.users[bet.userId];
      && t.state.users == s.users[bet.userId := u.(balance := u.balance + bet.stake)]
      && t.state.bets == s.bets[i := s.bets[i].(status := REFUNDED)]
      && t.state.analytics == s.analytics
    ensures BetsEvolve(s.bets, t.state.bets) && t.state.users.Keys == s.users.Keys
  {
    if bet.userId !in s.users then RefundStep(Some(NotFoundForRefund(bet.userId)), s)
    else
      match FirstActiveBet(s.bets, sessionId, bet.userId, 0)
      case None => RefundStep(Some(DefaultDescription(GameError)), s)
      case Some(i) =>
        var u := s.users[bet.userId];
        RefundStep(None, s.(users := s.users[bet.userId := u.(balance := u.balance + bet.stake)],
                            bets := s.bets[i := s.bets[i].(status := REFUNDED)]))
  }

  /** What the refund loop has accumulated after some prefix of the bets. */
  datatype RefundProgress = RefundProgress(
    state: DbState,
    successfulRefunds: seq<RefundDetail>,
    failedRefunds: seq<RefundDetail>,
    errors: seq<string>,
    totalAmountRefunded: int,
    numberOfUsersRefunded: nat)

  /** One refund's outcome added to the progress: a success credits the
      counters and adds a detail without error, a failure adds a detail
      with its error and the error itself. */
  function Extend(p: RefundProgress, bet: BetInMemory, t: RefundStep): (q: RefundProgress)
    ensures q.successfulRefunds
            == p.successfulRefunds + (if t.error.None? then [RefundDetail(bet.userId, bet.stake, None)] else [])
    ensures q.failedRefunds
            == p.failedRefunds + (if t.error.None? then [] else [RefundDetail(bet.userId, bet.stake, t.error)])
  {
    if t.error.None? then
      p.(state := t.state,
         successfulRefunds := p.successfulRefunds + [RefundDetail(bet.userId, bet.stake, None)],
         totalAmountRefunded := p.totalAmountRefunded + bet.stake,
         numberOfUsersRefunded := p.numberOfUsersRefunded + 1)
    else
      p.(failedRefunds := p.failedRefunds + [RefundDetail(bet.userId, bet.stake, t.error)],
         errors := p.errors + [t.error.value])
  }

  /** The refunds of `bets`, one transaction after another: a bet's detail
      goes to the successes or to the failures, and the counters agree with
      the list of successes. `RefundLoopSplit` says which bets go where. */
  function RefundLoop(s: DbState, sessionId: string, bets: seq<BetInMemory>): (p: RefundProgress)
    ensures |p.successfulRefunds| + |p.failedRefunds| == |bets|
    ensures p.numberOfUsersRefunded == |p.successfulRefunds|
    ensures p.totalAmountRefunded == SumAmounts(p.successfulRefunds)
    ensures |p.errors| == |p.failedRefunds|
    ensures forall k :: 0 <= k < |p.failedRefunds| ==> p.failedRefunds[k].error == Some(p.errors[k])
    ensures forall k :: 0 <= k < |p.successfulRefunds| ==> p.successfulRefunds[k].error.None?
    ensures BetsEvolve(s.bets, p.state.bets) && p.state.users.Keys == s.users.Keys
    ensures p.state.analytics == s.analytics
    decreases |bets|
  {
    if bets == [] then RefundProgress(s, [], [], [], 0, 0)
    else
      var p := RefundLoop(s, sessionId, bets[..|bets| - 1]);
      var bet := bets[|bets| - 1];
      var t := RefundTx(p.state, sessionId, bet);
      BetsEvolveTransitive(s.bets, p.state.bets, t.state.bets);
      Extend(p, bet, t)
  }

  /** The user and amount of each refund detail, in order. */
  function DetailPairs(details: seq<RefundDetail>): seq<(string, int)>
  {
    seq(|details|, k requires 0 <= k < |details| => (details[k].userId, details[k].amount))
  }

  /** The user and stake of each bet, in order. */
  function BetPairs(bets: seq<BetInMemory>): seq<(string, int)>
  {
    seq(|bets|, k requires 0 <= k < |bets| => (bets[k].userId, bets[k].stake))
  }

  /** For each element, `f` of the elements before it and the element. */
  function Flags<T>(xs: seq<T>, f: (seq<T>, T) -> bool): (ok: seq<bool>)
    ensures |ok| == |xs|
  {
    if xs == [] then []
    else Flags(xs[..|xs| - 1], f) + [f(xs[..|xs| - 1], xs[|xs| - 1])]
  }

  lemma FlagsLast<T>(xs: seq<T>, f: (seq<T>, T) -> bool)
    requires xs != []
    ensures var n := |xs|;
      && Flags(xs, f)[..n - 1] == Flags(xs[..n - 1], f)
      && Flags(xs, f)[n - 1] == f(xs[..n - 1], xs[n - 1])
  {
  }

  lemma {:induction false} FlagsAt<T>(xs: seq<T>, f: (seq<T>, T) -> bool, k: nat)
    requires k < |xs|
    ensures Flags(xs, f)[k] == f(xs[..k], xs[k])
    decreases |xs|
  {
    var n := |xs|;
    FlagsLast(xs, f);
    if k < n - 1 {
      FlagsAt(xs[..n - 1], f, k);
      assert xs[..n - 1][..k] == xs[..k];
    } else {
      assert xs[..n - 1] == xs[..k];
    }
  }

  /** For each bet, whether its refund transaction succeeds on the state the
      bets before it leave. */
  function RefundSucceeded(s: DbState, sessionId: string, bets: seq<BetInMemory>): (ok: seq<bool>)
    ensures |ok| == |bets|
  {
    Flags(bets, (before, bet) => SucceedsAfter(s, sessionId, before, bet))
  }

  /** Whether the refund of `bet` succeeds after the refunds of `before`. */
  function SucceedsAfter(s: DbState, sessionId: string, before: seq<BetInMemory>, bet: BetInMemory): bool
  {
    RefundTx(RefundLoop(s, sessionId, before).state, sessionId, bet).error.None?
  }

  /** The bets whose flag is `want`, in their original order. */
  function Select(bets: seq<BetInMemory>, flags: seq<bool>, want: bool): seq<BetInMemory>
    requires |flags| == |bets|
  {
    if bets == [] then []
    else Select(bets[..|bets| - 1], flags[..|flags| - 1], want)
         + (if flags[|flags| - 1] == want then [bets[|bets| - 1]] else [])
  }

  /** Selecting both ways splits the bets: every bet is in exactly one of the
      two selections. */
  lemma {:induction false} SelectPartition(bets: seq<BetInMemory>, flags: seq<bool>)
    requires |flags| == |bets|
    ensures multiset(Select(bets, flags, true)) + multiset(Select(bets, flags, false)) == multiset(bets)
  {
    if bets != [] {
      SelectPartition(bets[..|bets| - 1], flags[..|flags| - 1]);
      assert bets == bets[..|bets| - 1] + [bets[|bets| - 1]];
    }
  }

  /** The number of REFUNDED bets of the round. */
  function CountRefunded(bets: seq<BetRecord>, sessionId: string): nat
  {
    if bets == [] then 0
    else CountRefunded(bets[..|bets| - 1], sessionId)
         + (if bets[|bets| - 1].sessionId == sessionId && bets[|bets| - 1].status == REFUNDED then 1 else 0)
  }

  function RefundedFlag(b: BetRecord, sessionId: string): nat
  {
    if b.sessionId == sessionId && b.status == REFUNDED then 1 else 0
  }

  lemma {:induction false} CountRefundedUpdate(bets: seq<BetRecord>, sessionId: string, i: nat, b: BetRecord)
    requires i < |bets|
    ensures CountRefunded(bets[i := b], sessionId)
            == CountRefunded(bets, sessionId) - RefundedFlag(bets[i], sessionId) + RefundedFlag(b, sessionId)
    decreases |bets|
  {
    var n := |bets|;
    if i < n - 1 {
      CountRefundedUpdate(bets[..n - 1], sessionId, i, b);
      assert bets[i := b][..n - 1] == bets[..n - 1][i := b];
    } else {
      assert bets[i := b][..n - 1] == bets[..n - 1];
    }
  }

  lemma DetailPairsSnoc(details: seq<RefundDetail>, d: RefundDetail)
    ensures DetailPairs(details + [d]) == DetailPairs(details) + [(d.userId, d.amount)]
  {
    assert forall k :: 0 <= k < |details| ==> (details + [d])[k] == details[k];
  }

  lemma BetPairsSnoc(bets: seq<BetInMemory>, b: BetInMemory)
    ensures BetPairs(bets + [b]) == BetPairs(bets) + [(b.userId, b.stake)]
  {
    assert forall k :: 0 <= k < |bets| ==> (bets + [b])[k] == bets[k];
  }

  /** One more bet in the refund loop. */
  lemma RefundLoopSnoc(s: DbState, sessionId: string, bets: seq<BetInMemory>, i: nat)
    requires i < |bets|
    ensures var p := RefundLoop(s, sessionId, bets[..i]);
      var t := RefundTx(p.state, sessionId, bets[i]);
      RefundLoop(s, sessionId, bets[..i + 1])
      == if t.error.None? then
           p.(state := t.state,
              successfulRefunds := p.successfulRefunds + [RefundDetail(bets[i].userId, bets[i].stake, None)],
              totalAmountRefunded := p.totalAmountRefunded + bets[i].stake,
              numberOfUsersRefunded := p.numberOfUsersRefunded + 1)
         else
           p.(failedRefunds := p.failedRefunds + [RefundDetail(bets[i].userId, bets[i].stake, t.error)],
              errors := p.errors + [t.error.value])
  {
    assert bets[..i + 1][..i] == bets[..i];
  }

  /** The last step of the refund loop seen through the (user, amount)
      pairs. */
  lemma RefundPairsLast(s: DbState, sessionId: string, bets: seq<BetInMemory>)
    requires bets != []
    ensures var n := |bets|;
      var bet := bets[n - 1];
      var ok := SucceedsAfter(s, sessionId, bets[..n - 1], bet);
      var p := RefundLoop(s, sessionId, bets[..n - 1]);
      var q := RefundLoop(s, sessionId, bets);
      && DetailPairs(q.successfulRefunds)
         == DetailPairs(p.successfulRefunds) + (if ok then [(bet.userId, bet.stake)] else [])
      && DetailPairs(q.failedRefunds)
         == DetailPairs(p.failedRefunds) + (if ok then [] else [(bet.userId, bet.stake)])
  {
    var n := |bets|;
    var bet := bets[n - 1];
    var p := RefundLoop(s, sessionId, bets[..n - 1]);
    var t := RefundTx(p.state, sessionId, bet);
    PairsStep(p, RefundLoop(s, sessionId, bets), bet, t.error);
  }

  /** One detail appended to one of the two lists, seen through the pairs. */
  lemma PairsStep(p: RefundProgress, q: RefundProgress, bet: BetInMemory, error: Option<string>)
    requires q.successfulRefunds
             == p.successfulRefunds + (if error.None? then [RefundDetail(bet.userId, bet.stake, None)] else [])
    requires q.failedRefunds
             == p.failedRefunds + (if error.None? then [] else [RefundDetail(bet.userId, bet.stake, error)])
    ensures DetailPairs(q.successfulRefunds)
            == DetailPairs(p.successfulRefunds) + (if error.None? then [(bet.userId, bet.stake)] else [])
    ensures DetailPairs(q.failedRefunds)
            == DetailPairs(p.failedRefunds) + (if error.None? then [] else [(bet.userId, bet.stake)])
  {
    if error.None? {
      DetailPairsSnoc(p.successfulRefunds, RefundDetail(bet.userId, bet.stake, None));
    } else {
      DetailPairsSnoc(p.failedRefunds, RefundDetail(bet.userId, bet.stake, error));
    }
  }

  lemma SelectLast(bets: seq<BetInMemory>, flags: seq<bool>, want: bool)
    requires |flags| == |bets| && bets != []
    ensures Select(bets, flags, want)
            == Select(bets[..|bets| - 1], flags[..|flags| - 1], want)
               + (if flags[|flags| - 1] == want then [bets[|bets| - 1]] else [])
  {
  }

  /** The successes of the refund loop are the bets whose refund succeeded,
      in order. */
  lemma {:induction false} RefundLoopSuccesses(s: DbState, sessionId: string, bets: seq<BetInMemory>)
    ensures DetailPairs(RefundLoop(s, sessionId, bets).successfulRefunds)
            == BetPairs(Select(bets, RefundSucceeded(s, sessionId, bets), true))
    decreases |bets|
  {
    if bets != [] {
      var n := |bets|;
      var ok := RefundSucceeded(s, sessionId, bets);
      RefundLoopSuccesses(s, sessionId, bets[..n - 1]);
      FlagsLast(bets, (before, bet) => SucceedsAfter(s, sessionId, before, bet));
      RefundPairsLast(s, sessionId, bets);
      SelectLast(bets, ok, true);
      if ok[n - 1] {
        BetPairsSnoc(Select(bets[..n - 1], ok[..n - 1], true), bets[n - 1]);
      }
    }
  }

  /** The failures of the refund loop are the bets whose refund failed, in
      order. */
  lemma {:induction false} RefundLoopFailures(s: DbState, sessionId: string, bets: seq<BetInMemory>)
    ensures DetailPairs(RefundLoop(s, sessionId, bets).failedRefunds)
            == BetPairs(Select(bets, RefundSucceeded(s, sessionId, bets), false))
    decreases |bets|
  {
    if bets != [] {
      var n := |bets|;
      var ok := RefundSucceeded(s, sessionId, bets);
      RefundLoopFailures(s, sessionId, bets[..n - 1]);
      FlagsLast(bets, (before, bet) => SucceedsAfter(s, sessionId, before, bet));
      RefundPairsLast(s, sessionId, bets);
      SelectLast(bets, ok, false);
      if !ok[n - 1] {
        BetPairsSnoc(Select(bets[..n - 1], ok[..n - 1], false), bets[n - 1]);
      }
    }
  }

  /** The whole refund loop: the successes list, as (user, stake) and in
      order, the bets whose refund transaction succeeds on the state left by
      the bets before them, and the failures list the others. */
  lemma RefundLoopSplit(s: DbState, sessionId: string, bets: seq<BetInMemory>)
    ensures var p := RefundLoop(s, sessionId, bets);
      var ok := RefundSucceeded(s, sessionId, bets);
      && (forall k :: 0 <= k < |bets| ==> ok[k] == SucceedsAfter(s, sessionId, bets[..k], bets[k]))
      && DetailPairs(p.successfulRefunds) == BetPairs(Select(bets, ok, true))
      && DetailPairs(p.failedRefunds) == BetPairs(Select(bets, ok, false))
  {
    forall k | 0 <= k < |bets|
      ensures RefundSucceeded(s, sessionId, bets)[k] == SucceedsAfter(s, sessionId, bets[..k], bets[k])
    {
      FlagsAt(bets, (before, bet) => SucceedsAfter(s, sessionId, before, bet), k);
    }
    RefundLoopSuccesses(s, sessionId, bets);
    RefundLoopFailures(s, sessionId, bets);
  }

  /** Each successful refund turns exactly one more bet of the round
      REFUNDED, and no bet is added or removed. */
  lemma {:induction false} RefundLoopMarksRefunded(s: DbState, sessionId: string, bets: seq<BetInMemory>)
    ensures var p := RefundLoop(s, sessionId, bets);
      && |p.state.bets| == |s.bets|
      && CountRefunded(p.state.bets, sessionId) == CountRefunded(s.bets, sessionId) + |p.successfulRefunds|
    decreases |bets|
  {
    if bets != [] {
      var init := bets[..|bets| - 1];
      RefundLoopMarksRefunded(s, sessionId, init);
      var p := RefundLoop(s, sessionId, init);
      var bet := bets[|bets| - 1];
      var t := RefundTx(p.state, sessionId, bet);
      if t.error.None? {
        var i := FirstActiveBet(p.state.bets, sessionId, bet.userId, 0).value;
        CountRefundedUpdate(p.state.bets, sessionId, i, p.state.bets[i].(status := REFUNDED));
      }
    }
  }

  /** The final status and message of the summary. */
  function Conclude(refunded: nat, toRefund: nat): (r: (RefundStatus, string))
    ensures r.0 == RefundSuccess <==> refunded == toRefund
    ensures r.0 == RefundFailed <==> refunded != toRefund && refunded == 0
    ensures r.0 == RefundPartial <==> refunded != toRefund && refunded != 0
  {
    if refunded == toRefund then (RefundSuccess, "All refunds processed successfully")
    else if refunded == 0 then (RefundFailed, "All refunds failed")
    else (RefundPartial, Text.DecimalText(refunded) + " out of " + Text.DecimalText(toRefund)
                         + " refunds processed successfully")
  }

  datatype RefundOutcome = RefundOutcome(summary: RefundsSummary, state: DbState)

  /** All refunds of a round and their summary. */
  function ProcessRefundsSpec(s: DbState, sessionId: string, bets: seq<BetInMemory>, totalBetAmount: int)
    : (r: RefundOutcome)
    ensures r.summary.numberOfUsersToRefund == |bets| && r.summary.totalBetAmount == totalBetAmount
    ensures |r.summary.successfulRefunds| + |r.summary.failedRefunds| == |bets|
    ensures r.summary.numberOfUsersRefunded == |r.summary.successfulRefunds|
    ensures r.summary.totalAmountRefunded == SumAmounts(r.summary.successfulRefunds)
    ensures |r.summary.errors| == |r.summary.failedRefunds|
    ensures r.summary.status == RefundSuccess <==> |r.summary.failedRefunds| == 0
    ensures r.summary.status == RefundFailed <==> |bets| > 0 && |r.summary.successfulRefunds| == 0
    ensures var ok := RefundSucceeded(s, sessionId, bets);
      && DetailPairs(r.summary.successfulRefunds) == BetPairs(Select(bets, ok, true))
      && DetailPairs(r.summary.failedRefunds) == BetPairs(Select(bets, ok, false))
    ensures BetsEvolve(s.bets, r.state.bets) && r.state.users.Keys == s.users.Keys
  {
    RefundLoopSplit(s, sessionId, bets);
    var p := RefundLoop(s, sessionId, bets);
    var (status, message) := Conclude(p.numberOfUsersRefunded, |bets|);
    RefundOutcome(
      RefundsSummary(status, totalBetAmount, p.totalAmountRefunded, |bets|, p.numberOfUsersRefunded,
                     p.failedRefunds, p.successfulRefunds, p.errors, message),
      p.state)
  }

  /** The amounts credited are exactly the stakes of the successful refunds:
      every user's balance grows by the sum of that user's refunded stakes. */
  lemma {:induction false} RefundLoopCredits(s: DbState, sessionId: string, bets: seq<BetInMemory>, userId: string)
    requires userId in s.users
    ensures var p := RefundLoop(s, sessionId, bets);
      p.state.users[userId].balance == s.users[userId].balance + SumAmountsOf(p.successfulRefunds, userId)
    decreases |bets|
  {
    if bets != [] {
      RefundLoopCredits(s, sessionId, bets[..|bets| - 1], userId);
      var p := RefundLoop(s, sessionId, bets[..|bets| - 1]);
      var bet := bets[|bets| - 1];
      var t := RefundTx(p.state, sessionId, bet);
      if t.error.None? {
        var d := RefundDetail(bet.userId, bet.stake, None);
        assert (p.successfulRefunds + [d])[..|p.successfulRefunds|] == p.successfulRefunds;
      }
    }
  }

  function SumAmountsOf(details: seq<RefundDetail>, userId: string): int
  {
    if details == [] then 0
    else SumAmountsOf(details[..|details| - 1], userId)
         + (if details[|details| - 1].userId == userId then details[|details| - 1].amount else 0)
  }
}
