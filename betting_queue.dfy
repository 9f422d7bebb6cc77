/** The operation queues: one FIFO of bet requests and one of cashout
    requests, each drained one request at a time into the ledger.

    Each request carries a ticket standing for its completion handle; the
    outcome the handle is resolved or rejected with is recorded under that
    ticket. The asynchronous drain loop is cut at its one await: starting a
    drain (the guard and the lock, `ProcessBets`), one resumed iteration
    after the awaited ledger call (`ResumeBets`), and running the loop to
    the end (`DrainBets`), which is what waiting for the queue to drain
    amounts to. Requests added while a drain is under way are appended and
    served by that same drain. */
module BettingQueue {

  import opened Common
  import opened Errors
  import Text
  import opened Store
  import opened Ledger

  /** Requests allowed to wait in the bet queue. */
  const MAX_QUEUE_SIZE: nat := 1000

  /** The game events the queues emit for the round state machine. */
  datatype GameEvent = BettingStarted | BettingComplete | CashoutStart | CashoutComplete

  /** A request and the ticket of its completion handle. */
  datatype QueueItem<T> = QueueItem(ticket: nat, payload: T)

  /** `validateQueueSize`: a full bet queue refuses the request with a
      BettingError whose shown message is the default one. */
  function ValidateQueueSize(size: nat): (r: Option<AppError>)
    ensures r.None? <==> size < MAX_QUEUE_SIZE
    ensures r.Some? ==> r.value.name == BettingError && r.value.description == DefaultDescription(BettingError)
  {
    if size >= MAX_QUEUE_SIZE
    then Some(WithDetails(BettingError, "Queue capacity exceeded. Current queue size: " + Text.DecimalText(size)))
    else None
  }

  /** Tickets strictly increase along the queue and are all below `next`. */
  predicate OrderedTickets<T>(q: seq<QueueItem<T>>, next: nat)
  {
    && (forall i, j :: 0 <= i < j < |q| ==> q[i].ticket < q[j].ticket)
    && (forall i :: 0 <= i < |q| ==> q[i].ticket < next)
  }

  // Appending under the next ticket keeps the tickets ordered.
  lemma OrderedSnoc<T>(q: seq<QueueItem<T>>, next: nat, item: QueueItem<T>)
    requires OrderedTickets(q, next) && item.ticket == next
    ensures OrderedTickets(q + [item], next + 1)
  {
  }

  // Raising the bound keeps the tickets ordered.
  lemma OrderedRaise<T>(q: seq<QueueItem<T>>, next: nat)
    requires OrderedTickets(q, next)
    ensures OrderedTickets(q, next + 1)
  {
  }

  /** The ledger steps a queue of bet requests stands for, in queue order. */
  function BetOps(q: seq<QueueItem<BettingDataToProcess>>): seq<LedgerOp>
  {
    seq(|q|, k requires 0 <= k < |q| => PlaceBetOp(q[k].payload))
  }

  /** The ledger steps a queue of cashout requests stands for, in queue order. */
  function CashoutOps(q: seq<QueueItem<CashoutDataToProcess>>): seq<LedgerOp>
  {
    seq(|q|, k requires 0 <= k < |q| => CashoutOp(q[k].payload))
  }

  /** The state the ledger has committed once the first k bet requests of q
      are processed, one more of them being a step of the ledger. */
  lemma BetOpsSnoc(s: DbState, sessionId: string, q: seq<QueueItem<BettingDataToProcess>>, k: nat)
    requires k < |q|
    ensures RunOps(s, sessionId, BetOps(q[..k + 1]))
            == Step(RunOps(s, sessionId, BetOps(q[..k])), sessionId, PlaceBetOp(q[k].payload))
  {
    assert BetOps(q[..k + 1])[..k] == BetOps(q[..k]);
  }

  lemma CashoutOpsSnoc(s: DbState, sessionId: string, q: seq<QueueItem<CashoutDataToProcess>>, k: nat)
    requires k < |q|
    ensures RunOps(s, sessionId, CashoutOps(q[..k + 1]))
            == Step(RunOps(s, sessionId, CashoutOps(q[..k])), sessionId, CashoutOp(q[k].payload))
  {
    assert CashoutOps(q[..k + 1])[..k] == CashoutOps(q[..k]);
  }

  /** The outcome each request's handle is settled with when the requests
      of q are processed in order; `settle` gives a request's outcome from
      the requests ahead of it and its payload. */
  function Settlements<T, R>(q: seq<QueueItem<T>>, settle: (seq<QueueItem<T>>, T) -> R): map<nat, R>
    decreases |q|
  {
    if q == [] then map[]
    else
      var prefix := q[..|q| - 1];
      Settlements(prefix, settle)[q[|q| - 1].ticket := settle(prefix, q[|q| - 1].payload)]
  }

  /** How the bet queue settles a request: the ledger's place-bet result on
      the state the requests ahead of it leave. */
  function BetSettler(s: DbState, sessionId: string)
    : (seq<QueueItem<BettingDataToProcess>>, BettingDataToProcess) -> Result<BettingResult>
  {
    (prefix: seq<QueueItem<BettingDataToProcess>>, p: BettingDataToProcess) =>
      PlaceBetTx(RunOps(s, sessionId, BetOps(prefix)), sessionId, p).result
  }

  /** How the cashout queue settles a request. */
  function CashoutSettler(s: DbState, sessionId: string)
    : (seq<QueueItem<CashoutDataToProcess>>, CashoutDataToProcess) -> Result<CashoutResult>
  {
    (prefix: seq<QueueItem<CashoutDataToProcess>>, p: CashoutDataToProcess) =>
      CashoutTx(RunOps(s, sessionId, CashoutOps(prefix)), sessionId, p).result
  }

  function BetSettlements(s: DbState, sessionId: string, q: seq<QueueItem<BettingDataToProcess>>)
    : map<nat, Result<BettingResult>>
  {
    Settlements(q, BetSettler(s, sessionId))
  }

  function CashoutSettlements(s: DbState, sessionId: string, q: seq<QueueItem<CashoutDataToProcess>>)
    : map<nat, Result<CashoutResult>>
  {
    Settlements(q, CashoutSettler(s, sessionId))
  }

  /** One more processed request settles one more handle. */
  lemma SettlementsSnoc<T, R>(q: seq<QueueItem<T>>, settle: (seq<QueueItem<T>>, T) -> R, k: nat)
    requires k < |q|
    ensures Settlements(q[..k + 1], settle) == Settlements(q[..k], settle)[q[k].ticket := settle(q[..k], q[k].payload)]
  {
    assert q[..k + 1][..k] == q[..k];
  }

  lemma BetSettlementsSnoc(s: DbState, sessionId: string, q: seq<QueueItem<BettingDataToProcess>>, k: nat)
    requires k < |q|
    ensures BetSettlements(s, sessionId, q[..k + 1])
            == BetSettlements(s, sessionId, q[..k])[q[k].ticket :=
                 PlaceBetTx(RunOps(s, sessionId, BetOps(q[..k])), sessionId, q[k].payload).result]
  {
    SettlementsSnoc(q, BetSettler(s, sessionId), k);
  }

  lemma CashoutSettlementsSnoc(s: DbState, sessionId: string, q: seq<QueueItem<CashoutDataToProcess>>, k: nat)
    requires k < |q|
    ensures CashoutSettlements(s, sessionId, q[..k + 1])
            == CashoutSettlements(s, sessionId, q[..k])[q[k].ticket :=
                 CashoutTx(RunOps(s, sessionId, CashoutOps(q[..k])), sessionId, q[k].payload).result]
  {
    SettlementsSnoc(q, CashoutSettler(s, sessionId), k);
  }

  lemma UnionUpdate<V>(a: map<nat, V>, b: map<nat, V>, t: nat, v: V)
    ensures a + b[t := v] == (a + b)[t := v]
  {
  }

  /** The tickets of a queue. */
  function Tickets<T>(q: seq<QueueItem<T>>): (r: set<nat>)
    ensures forall i :: 0 <= i < |q| ==> q[i].ticket in r
    ensures forall t :: t in r ==> exists i :: 0 <= i < |q| && q[i].ticket == t
    decreases |q|
  {
    if q == [] then {} else Tickets(q[..|q| - 1]) + {q[|q| - 1].ticket}
  }

  /** Every queued request, and nothing else, gets a settlement. */
  lemma {:induction false} SettlementsKeys<T, R>(q: seq<QueueItem<T>>, settle: (seq<QueueItem<T>>, T) -> R)
    ensures Settlements(q, settle).Keys == Tickets(q)
    decreases |q|
  {
    if q != [] {
      SettlementsKeys(q[..|q| - 1], settle);
    }
  }

  /** With increasing tickets every request gets exactly its own outcome:
      the one `settle` gives it after all requests ahead of it. */
  lemma {:induction false} SettlementsAt<T, R>(q: seq<QueueItem<T>>, settle: (seq<QueueItem<T>>, T) -> R, k: nat)
    requires forall i, j :: 0 <= i < j < |q| ==> q[i].ticket < q[j].ticket
    requires k < |q|
    ensures q[k].ticket in Settlements(q, settle)
    ensures Settlements(q, settle)[q[k].ticket] == settle(q[..k], q[k].payload)
    decreases |q|
  {
    var n := |q| - 1;
    var prefix := q[..n];
    if k < n {
      SettlementsAt(prefix, settle, k);
      assert prefix[..k] == q[..k];
      assert q[k].ticket != q[n].ticket;
    }
  }

  /** FIFO for bets: each request's result is the ledger's on the state the
      bets ahead of it leave. */
  lemma BetSettlementsAt(s: DbState, sessionId: string, q: seq<QueueItem<BettingDataToProcess>>, k: nat)
    requires forall i, j :: 0 <= i < j < |q| ==> q[i].ticket < q[j].ticket
    requires k < |q|
    ensures q[k].ticket in BetSettlements(s, sessionId, q)
    ensures BetSettlements(s, sessionId, q)[q[k].ticket]
            == PlaceBetTx(RunOps(s, sessionId, BetOps(q[..k])), sessionId, q[k].payload).result
  {
    SettlementsAt(q, BetSettler(s, sessionId), k);
  }

  /** FIFO for cashouts. */
  lemma CashoutSettlementsAt(s: DbState, sessionId: string, q: seq<QueueItem<CashoutDataToProcess>>, k: nat)
    requires forall i, j :: 0 <= i < j < |q| ==> q[i].ticket < q[j].ticket
    requires k < |q|
    ensures q[k].ticket in CashoutSettlements(s, sessionId, q)
    ensures CashoutSettlements(s, sessionId, q)[q[k].ticket]
            == CashoutTx(RunOps(s, sessionId, CashoutOps(q[..k])), sessionId, q[k].payload).result
  {
    SettlementsAt(q, CashoutSettler(s, sessionId), k);
  }

  /** A request appended behind q is settled with the ledger's result on the
      state q leaves, and the ledger then holds that request's state. */
  lemma BetSettledLast(s: DbState, sessionId: string, q: seq<QueueItem<BettingDataToProcess>>,
                       item: QueueItem<BettingDataToProcess>)
    requires forall i, j :: 0 <= i < j < |q + [item]| ==> (q + [item])[i].ticket < (q + [item])[j].ticket
    ensures var o := PlaceBetTx(RunOps(s, sessionId, BetOps(q)), sessionId, item.payload);
      && item.ticket in BetSettlements(s, sessionId, q + [item])
      && BetSettlements(s, sessionId, q + [item])[item.ticket] == o.result
      && RunOps(s, sessionId, BetOps(q + [item])) == o.state
  {
    var q' := q + [item];
    BetSettlementsAt(s, sessionId, q', |q|);
    assert q'[..|q|] == q;
    BetOpsSnoc(s, sessionId, q', |q|);
    assert q'[..|q| + 1] == q';
  }

  lemma CashoutSettledLast(s: DbState, sessionId: string, q: seq<QueueItem<CashoutDataToProcess>>,
                           item: QueueItem<CashoutDataToProcess>)
    requires forall i, j :: 0 <= i < j < |q + [item]| ==> (q + [item])[i].ticket < (q + [item])[j].ticket
    ensures var o := CashoutTx(RunOps(s, sessionId, CashoutOps(q)), sessionId, item.payload);
      && item.ticket in CashoutSettlements(s, sessionId, q + [item])
      && CashoutSettlements(s, sessionId, q + [item])[item.ticket] == o.result
      && RunOps(s, sessionId, CashoutOps(q + [item])) == o.state
  {
    var q' := q + [item];
    CashoutSettlementsAt(s, sessionId, q', |q|);
    assert q'[..|q|] == q;
    CashoutOpsSnoc(s, sessionId, q', |q|);
    assert q'[..|q| + 1] == q';
  }

  class BettingQueueManager {
    const bettingManager: BettingManager
    var bettingQueue: seq<QueueItem<BettingDataToProcess>>
    var cashoutQueue: seq<QueueItem<CashoutDataToProcess>>
    var isProcessingBets: bool
    var isProcessingCashouts: bool
    /** The ticket the next request gets. */
    var nextTicket: nat
    /** How each settled bet request's handle was resolved or rejected. */
    var betOutcomes: map<nat, Result<BettingResult>>
    var cashoutOutcomes: map<nat, Result<CashoutResult>>
    var events: seq<GameEvent>

    /** Tickets of waiting requests are distinct, in arrival order, and not
        yet settled; every settled ticket was handed out. */
    ghost predicate TicketsValid()
      reads this
    {
      && OrderedTickets(bettingQueue, nextTicket)
      && OrderedTickets(cashoutQueue, nextTicket)
      && (forall i :: 0 <= i < |bettingQueue| ==> bettingQueue[i].ticket !in betOutcomes)
      && (forall i :: 0 <= i < |cashoutQueue| ==> cashoutQueue[i].ticket !in cashoutOutcomes)
      && (forall t :: t in betOutcomes ==> t < nextTicket)
      && (forall t :: t in cashoutOutcomes ==> t < nextTicket)
    }

    /** Between steps a queue is being drained exactly when it is not empty. */
    ghost predicate Valid()
      reads this
    {
      && TicketsValid()
      && (isProcessingBets <==> |bettingQueue| > 0)
      && (isProcessingCashouts <==> |cashoutQueue| > 0)
    }

    constructor (bettingManager: BettingManager)
      ensures Valid() && this.bettingManager == bettingManager
      ensures bettingQueue == [] && cashoutQueue == [] && !isProcessingBets && !isProcessingCashouts
      ensures betOutcomes == map[] && cashoutOutcomes == map[] && events == []
    {
      this.bettingManager := bettingManager;
      bettingQueue := [];
      cashoutQueue := [];
      isProcessingBets := false;
      isProcessingCashouts := false;
      nextTicket := 0;
      betOutcomes := map[];
      cashoutOutcomes := map[];
      events := [];
    }

    /** Submit a bet request: refused when 1000 requests already wait;
        otherwise appended under a fresh ticket, which is returned, and a
        drain started if none is under way. */
    method AddBetToQueueAndProcess(data: BettingDataToProcess) returns (r: Result<nat>)
      requires Valid()
      modifies this
      ensures Valid()
      ensures var refused := ValidateQueueSize(|old(bettingQueue)|);
        && (refused.Some? ==> r == Failure(refused.value) && bettingQueue == old(bettingQueue)
                              && nextTicket == old(nextTicket) && events == old(events)
                              && isProcessingBets == old(isProcessingBets))
        && (refused.None? ==>
              && r == Success(old(nextTicket)) && nextTicket == old(nextTicket) + 1
              && bettingQueue == old(bettingQueue) + [QueueItem(old(nextTicket), data)]
              && isProcessingBets
              && events == old(events) + (if old(isProcessingBets) then [] else [BettingStarted]))
      ensures cashoutQueue == old(cashoutQueue) && isProcessingCashouts == old(isProcessingCashouts)
      ensures betOutcomes == old(betOutcomes) && cashoutOutcomes == old(cashoutOutcomes)
    {
      var refused := ValidateQueueSize(|bettingQueue|);
      if refused.Some? {
        return Failure(refused.value);
      }
      var ticket := nextTicket;
      nextTicket := nextTicket + 1;
      bettingQueue := bettingQueue + [QueueItem(ticket, data)];
      if !isProcessingBets {
        events := events + [BettingStarted];
        ProcessBets();
      }
      r := Success(ticket);
    }

    /** The start of `processBets`: nothing when a drain is under way or the
        queue is empty, otherwise the queue is locked for draining. */
    method ProcessBets()
      requires TicketsValid() && (isProcessingBets ==> |bettingQueue| > 0)
      requires isProcessingCashouts <==> |cashoutQueue| > 0
      modifies this`isProcessingBets
      ensures Valid()
      ensures isProcessingBets == (old(isProcessingBets) || |bettingQueue| > 0)
    {
      if isProcessingBets || |bettingQueue| == 0 {
        return;
      }
      isProcessingBets := true;
    }

    /** One iteration of the drain loop, once the ledger call for the head
        request has returned: the head is removed and its handle settled with
        the ledger's own result or error for its payload; when the queue is
        then empty, BettingComplete is emitted and the lock released. */
    method ResumeBets()
      requires Valid() && isProcessingBets
      modifies this, bettingManager.db
      ensures Valid()
      ensures var head := old(bettingQueue[0]);
        var o := PlaceBetTx(old(bettingManager.db.state), bettingManager.gameSession.sessionData.sessionId, head.payload);
        && bettingQueue == old(bettingQueue[1..])
        && head.ticket !in old(betOutcomes)
        && betOutcomes == old(betOutcomes)[head.ticket := o.result]
        && bettingManager.db.state == o.state
        && isProcessingBets == (|bettingQueue| > 0)
        && events == old(events) + (if |bettingQueue| > 0 then [] else [BettingComplete])
      ensures nextTicket == old(nextTicket) && cashoutQueue == old(cashoutQueue)
      ensures isProcessingCashouts == old(isProcessingCashouts) && cashoutOutcomes == old(cashoutOutcomes)
    {
      var head := bettingQueue[0];
      var result := bettingManager.PlaceBet(head.payload);
      bettingQueue := bettingQueue[1..];
      betOutcomes := betOutcomes[head.ticket := result];
      if |bettingQueue| == 0 {
        events := events + [BettingComplete];
        isProcessingBets := false;
      }
    }

    /** The drain loop run to the end: every waiting request is processed in
        arrival order, each against the state its predecessors left, and each
        handle is settled with its own result; the queue ends empty and
        unlocked. */
    method DrainBets()
      requires Valid()
      modifies this, bettingManager.db
      ensures Valid() && bettingQueue == [] && !isProcessingBets
      ensures var q := old(bettingQueue);
        var sid := bettingManager.gameSession.sessionData.sessionId;
        && bettingManager.db.state == RunOps(old(bettingManager.db.state), sid, BetOps(q))
        && betOutcomes == old(betOutcomes) + BetSettlements(old(bettingManager.db.state), sid, q)
        && events == old(events) + (if |q| > 0 then [BettingComplete] else [])
      ensures nextTicket == old(nextTicket) && cashoutQueue == old(cashoutQueue)
      ensures isProcessingCashouts == old(isProcessingCashouts) && cashoutOutcomes == old(cashoutOutcomes)
    {
      ghost var q := bettingQueue;
      ghost var s0 := bettingManager.db.state;
      ghost var sid := bettingManager.gameSession.sessionData.sessionId;
      ghost var k := 0;
      while isProcessingBets
        invariant Valid() && 0 <= k <= |q| && bettingQueue == q[k..]
        invariant bettingManager.db.state == RunOps(s0, sid, BetOps(q[..k]))
        invariant betOutcomes == old(betOutcomes) + BetSettlements(s0, sid, q[..k])
        invariant events == old(events) + (if k > 0 && k == |q| then [BettingComplete] else [])
        invariant nextTicket == old(nextTicket) && cashoutQueue == old(cashoutQueue)
        invariant isProcessingCashouts == old(isProcessingCashouts) && cashoutOutcomes == old(cashoutOutcomes)
        decreases |bettingQueue|
      {
        BetOpsSnoc(s0, sid, q, k);
        BetSettlementsSnoc(s0, sid, q, k);
        UnionUpdate(old(betOutcomes), BetSettlements(s0, sid, q[..k]), q[k].ticket,
                    PlaceBetTx(RunOps(s0, sid, BetOps(q[..k])), sid, q[k].payload).result);
        ResumeBets();
        k := k + 1;
      }
      assert q[..|q|] == q;
    }

    /** Awaiting `addBetToQueueAndProcess`: the handle is rejected at once
        when the queue is full; otherwise it settles, once every request
        ahead of it is served, with the ledger's result for this request on
        the state those requests leave. */
    method SubmitBetAndWait(data: BettingDataToProcess) returns (r: Result<BettingResult>)
      requires Valid()
      modifies this, bettingManager.db
      ensures Valid() && cashoutQueue == old(cashoutQueue)
      ensures var sid := bettingManager.gameSession.sessionData.sessionId;
        var ahead := RunOps(old(bettingManager.db.state), sid, BetOps(old(bettingQueue)));
        var refused := ValidateQueueSize(|old(bettingQueue)|);
        && (refused.Some? ==> r == Failure(refused.value) && bettingQueue == old(bettingQueue)
                              && bettingManager.db.state == old(bettingManager.db.state))
        && (refused.None? ==> r == PlaceBetTx(ahead, sid, data).result && bettingQueue == []
                              && bettingManager.db.state == PlaceBetTx(ahead, sid, data).state)
    {
      ghost var q := bettingQueue;
      ghost var s0 := bettingManager.db.state;
      ghost var sid := bettingManager.gameSession.sessionData.sessionId;
      var submitted := AddBetToQueueAndProcess(data);
      if submitted.Failure? {
        return Failure(submitted.error);
      }
      BetSettledLast(s0, sid, q, QueueItem(submitted.value, data));
      DrainBets();
      r := betOutcomes[submitted.value];
    }

    /** Submit a cashout request: never refused for capacity; appended under
        a fresh ticket, which is returned, and a drain started if none is
        under way. */
    method AddCashoutToQueueAndProcess(data: CashoutDataToProcess) returns (ticket: nat)
      requires Valid()
      modifies this
      ensures Valid()
      ensures ticket == old(nextTicket) && nextTicket == old(nextTicket) + 1
      ensures cashoutQueue == old(cashoutQueue) + [QueueItem(ticket, data)] && isProcessingCashouts
      ensures events == old(events) + (if old(isProcessingCashouts) then [] else [CashoutStart])
      ensures bettingQueue == old(bettingQueue) && isProcessingBets == old(isProcessingBets)
      ensures betOutcomes == old(betOutcomes) && cashoutOutcomes == old(cashoutOutcomes)
    {
      ticket := nextTicket;
      OrderedSnoc(cashoutQueue, nextTicket, QueueItem(ticket, data));
      OrderedRaise(bettingQueue, nextTicket);
      nextTicket := nextTicket + 1;
      cashoutQueue := cashoutQueue + [QueueItem(ticket, data)];
      if !isProcessingCashouts {
        events := events + [CashoutStart];
        ProcessCashouts();
      }
    }

    /** The start of `processCashouts`. */
    method ProcessCashouts()
      requires TicketsValid() && (isProcessingCashouts ==> |cashoutQueue| > 0)
      requires isProcessingBets <==> |bettingQueue| > 0
      modifies this`isProcessingCashouts
      ensures Valid()
      ensures isProcessingCashouts == (old(isProcessingCashouts) || |cashoutQueue| > 0)
    {
      if isProcessingCashouts || |cashoutQueue| == 0 {
        return;
      }
      isProcessingCashouts := true;
    }

    /** One iteration of the cashout drain loop. */
    method ResumeCashouts()
      requires Valid() && isProcessingCashouts
      modifies this, bettingManager.db
      ensures Valid()
      ensures var head := old(cashoutQueue[0]);
        var o := CashoutTx(old(bettingManager.db.state), bettingManager.gameSession.sessionData.sessionId, head.payload);
        && cashoutQueue == old(cashoutQueue[1..])
        && head.ticket !in old(cashoutOutcomes)
        && cashoutOutcomes == old(cashoutOutcomes)[head.ticket := o.result]
        && bettingManager.db.state == o.state
        && isProcessingCashouts == (|cashoutQueue| > 0)
        && events == old(events) + (if |cashoutQueue| > 0 then [] else [CashoutComplete])
      ensures nextTicket == old(nextTicket) && bettingQueue == old(bettingQueue)
      ensures isProcessingBets == old(isProcessingBets) && betOutcomes == old(betOutcomes)
    {
      var head := cashoutQueue[0];
      var result := bettingManager.Cashout(head.payload);
      cashoutQueue := cashoutQueue[1..];
      cashoutOutcomes := cashoutOutcomes[head.ticket := result];
      if |cashoutQueue| == 0 {
        events := events + [CashoutComplete];
        isProcessingCashouts := false;
      }
    }

    /** The cashout drain loop run to the end, in arrival order. */
    method DrainCashouts()
      requires Valid()
      modifies this, bettingManager.db
      ensures Valid() && cashoutQueue == [] && !isProcessingCashouts
      ensures var q := old(cashoutQueue);
        var sid := bettingManager.gameSession.sessionData.sessionId;
        && bettingManager.db.state == RunOps(old(bettingManager.db.state), sid, CashoutOps(q))
        && cashoutOutcomes == old(cashoutOutcomes) + CashoutSettlements(old(bettingManager.db.state), sid, q)
        && events == old(events) + (if |q| > 0 then [CashoutComplete] else [])
      ensures nextTicket == old(nextTicket) && bettingQueue == old(bettingQueue)
      ensures isProcessingBets == old(isProcessingBets) && betOutcomes == old(betOutcomes)
    {
      ghost var q := cashoutQueue;
      ghost var s0 := bettingManager.db.state;
      ghost var sid := bettingManager.gameSession.sessionData.sessionId;
      ghost var k := 0;
      while isProcessingCashouts
        invariant Valid() && 0 <= k <= |q| && cashoutQueue == q[k..]
        invariant bettingManager.db.state == RunOps(s0, sid, CashoutOps(q[..k]))
        invariant cashoutOutcomes == old(cashoutOutcomes) + CashoutSettlements(s0, sid, q[..k])
        invariant events == old(events) + (if k > 0 && k == |q| then [CashoutComplete] else [])
        invariant nextTicket == old(nextTicket) && bettingQueue == old(bettingQueue)
        invariant isProcessingBets == old(isProcessingBets) && betOutcomes == old(betOutcomes)
        decreases |cashoutQueue|
      {
        CashoutOpsSnoc(s0, sid, q, k);
        CashoutSettlementsSnoc(s0, sid, q, k);
        UnionUpdate(old(cashoutOutcomes), CashoutSettlements(s0, sid, q[..k]), q[k].ticket,
                    CashoutTx(RunOps(s0, sid, CashoutOps(q[..k])), sid, q[k].payload).result);
        ResumeCashouts();
        k := k + 1;
      }
      assert q[..|q|] == q;
    }

    /** Awaiting `addCashoutToQueueAndProcess`: the handle settles, once every
        request ahead of it is served, with the ledger's result for this
        request on the state those requests leave. */
    method SubmitCashoutAndWait(data: CashoutDataToProcess) returns (r: Result<CashoutResult>)
      requires Valid()
      modifies this, bettingManager.db
      ensures Valid() && cashoutQueue == [] && bettingQueue == old(bettingQueue)
      ensures var sid := bettingManager.gameSession.sessionData.sessionId;
        var ahead := RunOps(old(bettingManager.db.state), sid, CashoutOps(old(cashoutQueue)));
        && r == CashoutTx(ahead, sid, data).result
        && bettingManager.db.state == CashoutTx(ahead, sid, data).state
    {
      ghost var q := cashoutQueue;
      ghost var s0 := bettingManager.db.state;
      ghost var sid := bettingManager.gameSession.sessionData.sessionId;
      var ticket := AddCashoutToQueueAndProcess(data);
      CashoutSettledLast(s0, sid, q, QueueItem(ticket, data));
      DrainCashouts();
      r := cashoutOutcomes[ticket];
    }
  }
}
