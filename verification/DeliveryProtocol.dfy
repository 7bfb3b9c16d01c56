/**
 The delivery protocol as a state machine.  Any number of workers process any
 orders, any number of times; between two database operations a worker may be
 arbitrarily slow, so what it remembers may be stale, or it may crash.  Admins,
 the reservation sweeper and checkout act at any moment in between.
 */
module DeliveryProtocol {
  import opened Wrappers
  import opened ShopDatabase
  import opened ShopInvariant

  /** Where a worker stands in `process`, with exactly what it remembers. */
  datatype Phase =
    | Loaded(initial: Order)               // the order was read
    | Checked                              // no other order of the group is its root
    | Beaten                               // the compare-and-set matched nothing
    | Claimed                              // the compare-and-set succeeded
    | Grouped(ids: seq<OrderId>)           // the open orders of the group were read
    | Taken(ids: seq<OrderId>)             // and moved to DELIVERING
    | Stocked(deliveries: seq<Delivery>)   // each order's reserved item was read
    | Sent(deliveries: seq<Delivery>)      // Telegram accepted the message
    | Reverting(ids: seq<OrderId>)         // Telegram answered 429 or 5xx
    | Failing                              // the job failed for good: `onFailed`
    | FailingGroup(like: Order)            // the root order was marked failed

  datatype Worker = Worker(order: OrderId, phase: Phase)

  /** A Telegram answer: accepted, confirmed rejection (429/5xx), refused
      (400/401/403), or no answer that says what happened. */
  datatype Answer = Accepted | Rejected | Refused | Unknown

  /** A message with the payloads of the items it delivers. */
  datatype Send = Send(deliveries: seq<Delivery>, answer: Answer)

  datatype System = System(db: Db, workers: map<nat, Worker>, sends: seq<Send>)

  const INITIAL := System(EMPTY_DB, map[], [])

  /** A worker's next move.  Parameters stand for what it cannot control. */
  datatype Move =
    | Start(order: OrderId)
    | GiveUp(order: OrderId)                             // a failed job's `onFailed`
    | Crash
    | CheckGroup
    | Claim
    | LookAgain
    | ReadGroup(listing: seq<OrderId>, complete: bool)
    | TakeAll
    | ReadStock(stock: seq<Delivery>, decrypted: bool)
    | SendMessage(answer: Answer)
    | Confirm
    | Revert
    | Fail
    | FailRest

  /** Everything else that touches the collections, one transaction each. */
  datatype Event =
    | AdminResend(o: OrderId)
    | AdminQueueRejected(o: OrderId)
    | AdminReplace(o: OrderId, replacement: ItemId, expiresAt: nat)
    | AdminRefund(o: OrderId, active: bool)
    | Sweep(row: ExpiredRow, now: nat, activeUsers: set<UserId>)
    | Buy(o: OrderId, bought: Order, hold: Option<PaymentId>, expiresAt: nat)
    | Hold(item: ItemId, pay: PaymentId, product: ProductId, expiresAt: nat)
    | Unhold(item: ItemId, pay: PaymentId)
    | Stock(item: ItemId, product: ProductId)
    | Unstock(item: ItemId)
    | Extend(ids: seq<OrderId>, expiresAt: nat)

  datatype Action = Work(w: nat, move: Move) | Outside(event: Event)

  /** Another open order of the group comes first: it owns the whole group. */
  predicate OwnedByOtherRoot(db: Db, initial: Order, o: OrderId) {
    exists g :: g in db.orders && InOpenGroup(db, initial, g) && g != o
             && (o in db.orders && InOpenGroup(db, initial, o) ==> Before(db, g, o))
  }

  /** `ids` is the sorted listing of the open group. */
  predicate GroupListing(db: Db, like: Order, ids: seq<OrderId>) {
    && (forall g :: g in ids ==> InOpenGroup(db, like, g))
    && (forall g :: g in db.orders && InOpenGroup(db, like, g) ==> g in ids)
    && (forall i, j :: 0 <= i < j < |ids| ==> Before(db, ids[i], ids[j]))
  }

  predicate StockListing(db: Db, ids: seq<OrderId>, ds: seq<Delivery>) {
    && OrdersOf(ds) == ids
    && forall k :: 0 <= k < |ds| ==> ds[k].item in db.items && db.items[ds[k].item].HeldFor(ds[k].order)
  }

  /** The database, the worker and the message, if any, after one move. */
  datatype Turn = Turn(db: Db, worker: Option<Worker>, sent: Option<Send>)

  function Wait(db: Db, worker: Option<Worker>): Turn { Turn(db, worker, None) }

  function Goto(db: Db, o: OrderId, phase: Phase): Turn { Turn(db, Some(Worker(o, phase)), None) }

  function Leave(db: Db): Turn { Turn(db, None, None) }

  /** One move of a worker; a move that does not fit its phase changes nothing. */
  function Moved(db: Db, worker: Option<Worker>, m: Move): Turn {
    match worker
    case None => Arrive(db, m)
    case Some(Worker(o, phase)) =>
      match (m, phase)
      case (Crash, _) => Leave(db)
      case (CheckGroup, Loaded(initial)) =>
        if initial.group.Some? && OwnedByOtherRoot(db, initial, o) then Leave(db)
        else if initial.status.Delivering? then Goto(db, o, Failing)
        else Goto(db, o, Checked)
      case (Claim, Checked) =>
        (match MarkDelivering(db, o)
         case Some(next) => Goto(next, o, Claimed)
         case None => Goto(db, o, Beaten))
      case (LookAgain, Beaten) =>
        if o in db.orders && (db.orders[o].status.Delivered? || db.orders[o].status.Delivering?)
        then Leave(db) else Goto(db, o, Failing)
      // `complete` is false when the user or the product is missing.
      case (ReadGroup(listing, complete), Claimed) =>
        if !complete || o !in db.orders then Goto(db, o, Failing)
        else if db.orders[o].group.None? then Goto(db, o, Grouped([o]))
        else if !GroupListing(db, db.orders[o], listing) then Wait(db, worker)
        else if o !in listing then Leave(db)
        else Goto(db, o, Grouped(listing))
      case (TakeAll, Grouped(ids)) => Goto(TakeGroup(db, ids), o, Taken(ids))
      // A missing item or an undecryptable payload fails the job.
      case (ReadStock(stock, decrypted), Taken(ids)) =>
        if decrypted && StockListing(db, ids, stock) then Goto(db, o, Stocked(stock)) else Goto(db, o, Failing)
      case (SendMessage(answer), Stocked(ds)) =>
        Turn(db, Some(Worker(o, AfterAnswer(ds, answer))), Some(Send(ds, answer)))
      // An aborted confirmation is an ambiguous result.
      case (Confirm, Sent(ds)) =>
        (match ConfirmDelivery(db, ds)
         case Some(next) => Leave(next)
         case None => Goto(db, o, Failing))
      case (Revert, Reverting(ids)) => Leave(RevertGroup(db, ids))
      case (Fail, Failing) =>
        (match MarkDeliveryFailed(db, o)
         case None => Leave(db)
         case Some(next) =>
           if next.orders[o].group.Some? then Goto(next, o, FailingGroup(next.orders[o])) else Leave(next))
      case (FailRest, FailingGroup(like)) => Leave(FailGroup(db, like))
      case _ => Wait(db, worker)
  }

  /** A new worker reads its order; `process` fails at once on a missing or failed
      one and returns on a delivered one. */
  function Arrive(db: Db, m: Move): Turn {
    match m
    case Start(o) =>
      if o !in db.orders || db.orders[o].status.DeliveryFailed? then Goto(db, o, Failing)
      else if db.orders[o].status.Delivered? then Leave(db)
      else Goto(db, o, Loaded(db.orders[o]))
    case GiveUp(o) => Goto(db, o, Failing)
    case _ => Leave(db)
  }

  function AfterAnswer(ds: seq<Delivery>, answer: Answer): Phase {
    match answer
    case Accepted => Sent(ds)
    case Rejected => Reverting(OrdersOf(ds))
    case _ => Failing
  }

  function Happened(db: Db, e: Event): Option<Db> {
    match e
    case AdminResend(o) => Resend(db, o)
    case AdminQueueRejected(o) => Some(QueueRejected(db, o))
    case AdminReplace(o, r, t) => Replace(db, o, r, t)
    case AdminRefund(o, active) => Refund(db, o, active)
    case Sweep(row, now, active) => ReleaseRow(db, row, now, active)
    case Buy(o, order, hold, t) => Checkout(db, o, order, hold, t)
    case Hold(it, pay, p, t) => HoldForPayment(db, it, pay, p, t)
    case Unhold(it, pay) => ReleaseHold(db, it, pay)
    case Stock(it, p) => ImportItem(db, it, p)
    case Unstock(it) => RemoveItem(db, it)
    case Extend(ids, t) => Some(ExtendReservations(db, ids, t))
  }

  function WorkerAt(s: System, w: nat): Option<Worker> { if w in s.workers then Some(s.workers[w]) else None }

  function TurnOf(s: System, w: nat, m: Move): Turn { Moved(s.db, WorkerAt(s, w), m) }

  function Step(s: System, a: Action): System {
    match a
    case Outside(e) =>
      (match Happened(s.db, e)
       case None => s
       case Some(db) => s.(db := db))
    case Work(w, m) =>
      var t := TurnOf(s, w, m);
      System(t.db,
             if t.worker.Some? then s.workers[w := t.worker.value] else s.workers - {w},
             if t.sent.Some? then s.sends + [t.sent.value] else s.sends)
  }

  function Run(s: System, actions: seq<Action>): System
    decreases |actions|
  {
    if actions == [] then s else Run(Step(s, actions[0]), actions[1..])
  }

  // ---- One outcome per order -----------------------------------------------

  lemma MoveKeeps(db: Db, worker: Option<Worker>, m: Move)
    requires Inv(db)
    ensures Good(db, Moved(db, worker, m).db)
  {
    if Moved(db, worker, m).db == db { return; }
    match (m, worker.value.phase)
    case (Claim, _) => MarkDeliveringKeeps(db, worker.value.order);
    case (TakeAll, Grouped(ids)) => MoveAllKeeps(db, ids, PendingDelivery, Delivering, Processing);
    case (Confirm, Sent(ds)) => ConfirmDeliveryKeeps(db, ds);
    case (Revert, Reverting(ids)) => MoveAllKeeps(db, ids, Delivering, PendingDelivery, Pending);
    case (Fail, _) => MarkDeliveryFailedKeeps(db, worker.value.order);
    case (FailRest, FailingGroup(like)) => FailGroupKeeps(db, like);
    case _ =>
  }

  lemma EventKeeps(db: Db, e: Event)
    requires Inv(db) && Happened(db, e).Some?
    ensures Good(db, Happened(db, e).value)
  {
    match e
    case AdminResend(o) => ResendKeeps(db, o);
    case AdminQueueRejected(o) => QueueRejectedKeeps(db, o);
    case AdminReplace(o, r, t) => ReplaceKeeps(db, o, r, t);
    case AdminRefund(o, active) => RefundKeeps(db, o, active);
    case Sweep(row, now, active) => ReleaseRowKeeps(db, row, now, active);
    case Buy(o, order, hold, t) => CheckoutKeeps(db, o, order, hold, t);
    case Hold(it, pay, p, t) => HoldForPaymentKeeps(db, it, pay, p, t);
    case Unhold(it, pay) => ReleaseHoldKeeps(db, it, pay);
    case Stock(it, p) => ImportItemKeeps(db, it, p);
    case Unstock(it) => RemoveItemKeeps(db, it);
    case Extend(ids, t) => ExtendReservationsKeeps(db, ids, t);
  }

  lemma StepKeeps(s: System, a: Action)
    requires Inv(s.db)
    ensures Good(s.db, Step(s, a).db)
  {
    match a
    case Work(w, m) => MoveKeeps(s.db, WorkerAt(s, w), m);
    case Outside(e) => if Happened(s.db, e).Some? { EventKeeps(s.db, e); }
  }

  lemma {:induction false} RunKeeps(s: System, actions: seq<Action>)
    requires Inv(s.db)
    ensures Good(s.db, Run(s, actions).db)
    decreases |actions|
  {
    if actions != [] {
      StepKeeps(s, actions[0]);
      RunKeeps(Step(s, actions[0]), actions[1..]);
      GoodThen(s.db, Step(s, actions[0]).db, Run(s, actions).db);
    }
  }

  /** Main result: after any run from an empty shop every order has at most one
      outcome, and the outcome is backed by its item and its payouts. */
  lemma OneOutcome(actions: seq<Action>, o: OrderId)
    requires o in Run(INITIAL, actions).db.orders
    ensures var db := Run(INITIAL, actions).db; var order := db.orders[o];
      && (order.status.Delivered? <==> exists it :: SoldTo(db, it, o))
      && (forall it, p :: SoldTo(db, it, o) && SoldTo(db, it, p) ==> o == p)
      && (forall i, j :: SoldTo(db, i, o) && SoldTo(db, j, o) ==> i == j)
      && PayoutsFor(db.payouts, o) ==
           (if (order.status.Refunded? || order.status.Cancelled?) && order.total > 0
            then [Payout(o, order.user, order.total)] else [])
  {
    RunKeeps(INITIAL, actions);
    var db := Run(INITIAL, actions).db;
    assert OrderOk(db, o) && PayoutsFor(db.payouts, o) == Owed(db, o);
    forall i | SoldTo(db, i, o) ensures db.orders[o].item == i && db.orders[o].status.Delivered? {
      assert ItemOk(db, i);
    }
  }

  /** Main result: an outcome is never revised.  Whatever happens afterwards, a
      delivered, refunded or cancelled order stays as it is, with its item sold
      to it alone or its payouts unchanged. */
  lemma OutcomeIsFinal(before: seq<Action>, after: seq<Action>, o: OrderId)
    requires o in Run(INITIAL, before).db.orders && Run(INITIAL, before).db.orders[o].Final()
    ensures var earlier, now := Run(INITIAL, before).db, Run(Run(INITIAL, before), after).db;
      && o in now.orders && now.orders[o] == earlier.orders[o]
      && PayoutsFor(now.payouts, o) == PayoutsFor(earlier.payouts, o)
      && (forall it :: SoldTo(now, it, o) <==> SoldTo(earlier, it, o))
  {
    RunKeeps(INITIAL, before);
    RunKeeps(Run(INITIAL, before), after);
    var earlier, now := Run(INITIAL, before).db, Run(Run(INITIAL, before), after).db;
    assert PayoutsFor(now.payouts, o) == Owed(now, o) && PayoutsFor(earlier.payouts, o) == Owed(earlier, o);
    forall it ensures SoldTo(now, it, o) <==> SoldTo(earlier, it, o) {
      if SoldTo(now, it, o) { assert ItemOk(now, it) && OrderOk(earlier, o); }
    }
  }
}
