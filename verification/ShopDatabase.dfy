/**
 The order, inventory and wallet collections, and every database operation the
 delivery worker, the recovery service, the reservation sweeper and checkout
 perform on them.  One function is one atomic operation: a conditional update,
 an `updateMany`, or a whole MongoDB transaction (which either commits or leaves
 the database as it was).
 */
module ShopDatabase {
  import opened Wrappers

  type OrderId = nat
  type ItemId = nat
  type UserId = nat
  type ProductId = nat
  type PaymentId = nat

  datatype OrderStatus = PendingDelivery | Delivering | Delivered | DeliveryFailed | Refunded | Cancelled
  datatype DeliveryStatus = Pending | Processing | Done | Failed
  datatype ItemStatus = Available | Reserved | Sold | Disabled

  /** `group` is `metadata.paymentRequestId` when it is a valid identifier. */
  datatype Order = Order(user: UserId, product: ProductId, item: ItemId, total: nat, group: Option<PaymentId>,
                         createdAt: nat, status: OrderStatus, delivery: DeliveryStatus)
  {
    predicate Live() { status.PendingDelivery? || status.Delivering? || status.DeliveryFailed? }

    predicate Open() {
      && (status.PendingDelivery? || status.Delivering?)
      && (delivery.Pending? || delivery.Processing?)
    }

    predicate Final() { status.Delivered? || status.Refunded? || status.Cancelled? }

    function Moved(s: OrderStatus, d: DeliveryStatus): Order { this.(status := s, delivery := d) }
  }

  datatype Item = Item(product: ProductId, status: ItemStatus, reservedOrder: Option<OrderId>,
                       reservedPayment: Option<PaymentId>, soldOrder: Option<OrderId>,
                       expiresAt: Option<nat>, deleted: bool)
  {
    predicate HeldFor(o: OrderId) { status.Reserved? && reservedOrder == Some(o) && !deleted }

    predicate Free(p: ProductId) { status.Available? && product == p && !deleted }

    predicate ExpiredBy(now: nat) { expiresAt.Some? && expiresAt.value <= now }
  }

  /** Idempotency keys of the two wallet credits an order can cause. */
  datatype CreditKey = DeliveryRefund(order: OrderId) | ReservationExpired(order: OrderId)

  /** One increment of a user's wallet balance. */
  datatype Payout = Payout(order: OrderId, user: UserId, amount: nat)

  datatype Db = Db(orders: map<OrderId, Order>, items: map<ItemId, Item>,
                   ledger: set<CreditKey>, payouts: seq<Payout>)

  const EMPTY_DB := Db(map[], map[], {}, [])

  datatype Delivery = Delivery(order: OrderId, item: ItemId)

  function PutOrder(db: Db, o: OrderId, order: Order): Db { db.(orders := db.orders[o := order]) }

  function PutItem(db: Db, it: ItemId, item: Item): Db { db.(items := db.items[it := item]) }

  // ---- The delivery worker -------------------------------------------------

  function MarkDelivering(db: Db, o: OrderId): Option<Db> {
    if o in db.orders && db.orders[o].status.PendingDelivery? && db.orders[o].delivery.Pending?
    then Some(PutOrder(db, o, db.orders[o].Moved(Delivering, Processing)))
    else None
  }

  /** The open orders of one checkout group, as the group queries select them. */
  predicate InOpenGroup(db: Db, like: Order, g: OrderId) {
    && g in db.orders
    && like.group.Some?
    && db.orders[g].group == like.group
    && db.orders[g].user == like.user
    && db.orders[g].product == like.product
    && db.orders[g].Open()
  }

  /** `sort({ createdAt: 1, _id: 1 })` */
  predicate Before(db: Db, a: OrderId, b: OrderId) {
    && a in db.orders && b in db.orders
    && (db.orders[a].createdAt < db.orders[b].createdAt || (db.orders[a].createdAt == db.orders[b].createdAt && a < b))
  }

  /** `updateMany` on `ids` in one status, moving each match to another. */
  function MoveAll(db: Db, ids: seq<OrderId>, from: OrderStatus, s: OrderStatus, d: DeliveryStatus): Db {
    db.(orders := map o | o in db.orders ::
      if o in ids && db.orders[o].status == from then db.orders[o].Moved(s, d) else db.orders[o])
  }

  function TakeGroup(db: Db, ids: seq<OrderId>): Db { MoveAll(db, ids, PendingDelivery, Delivering, Processing) }

  function RevertGroup(db: Db, ids: seq<OrderId>): Db { MoveAll(db, ids, Delivering, PendingDelivery, Pending) }

  function OrdersOf(ds: seq<Delivery>): (ids: seq<OrderId>)
    ensures |ids| == |ds|
    ensures forall k :: 0 <= k < |ds| ==> ids[k] == ds[k].order
  {
    if ds == [] then [] else [ds[0].order] + OrdersOf(ds[1..])
  }

  /** `markSold` for each delivery in turn; an item already sold to the same
      order is accepted, anything else aborts the transaction. */
  function SellAll(items: map<ItemId, Item>, ds: seq<Delivery>): Option<map<ItemId, Item>> {
    if ds == [] then Some(items)
    else
      var Delivery(o, it) := ds[0];
      if it in items && items[it].HeldFor(o)
      then SellAll(items[it := items[it].(status := Sold, soldOrder := Some(o), expiresAt := None)], ds[1..])
      else if it in items && items[it].status.Sold? && items[it].soldOrder == Some(o)
      then SellAll(items, ds[1..])
      else None
  }

  /** The order write of the confirmation transaction has no status filter. */
  function DeliverAll(db: Db, ids: seq<OrderId>): Db {
    db.(orders := map o | o in db.orders :: if o in ids then db.orders[o].Moved(Delivered, Done) else db.orders[o])
  }

  function ConfirmDelivery(db: Db, ds: seq<Delivery>): Option<Db> {
    match SellAll(db.items, ds)
    case None => None
    case Some(items) => Some(DeliverAll(db.(items := items), OrdersOf(ds)))
  }

  function MarkDeliveryFailed(db: Db, o: OrderId): Option<Db> {
    if o in db.orders && (db.orders[o].status.PendingDelivery? || db.orders[o].status.Delivering?)
    then Some(PutOrder(db, o, db.orders[o].Moved(DeliveryFailed, Failed)))
    else None
  }

  function FailGroup(db: Db, like: Order): Db {
    db.(orders := map o | o in db.orders ::
      if InOpenGroup(db, like, o) then db.orders[o].Moved(DeliveryFailed, Failed) else db.orders[o])
  }

  // ---- Admin recovery ------------------------------------------------------

  predicate Recoverable(db: Db, o: OrderId) { o in db.orders && db.orders[o].status.DeliveryFailed? }

  function Resend(db: Db, o: OrderId): Option<Db> {
    if Recoverable(db, o) then Some(PutOrder(db, o, db.orders[o].Moved(PendingDelivery, Pending))) else None
  }

  /** `enqueueRecovery` when the queue rejects the job. */
  function QueueRejected(db: Db, o: OrderId): Db {
    if o in db.orders && db.orders[o].status.PendingDelivery?
    then PutOrder(db, o, db.orders[o].Moved(DeliveryFailed, Failed)) else db
  }

  function ReserveOne(db: Db, it: ItemId, o: OrderId, p: ProductId, expiresAt: nat): Option<Db> {
    if it in db.items && db.items[it].Free(p)
    then Some(PutItem(db, it, db.items[it].(status := Reserved, reservedOrder := Some(o),
                                            expiresAt := Some(expiresAt))))
    else None
  }

  /** Withdraws the old item when it is still held for the order. */
  function Withdraw(db: Db, it: ItemId, o: OrderId): Db {
    if it in db.items && db.items[it].status.Reserved? && db.items[it].reservedOrder == Some(o)
    then PutItem(db, it, db.items[it].(status := Disabled)) else db
  }

  function Replace(db: Db, o: OrderId, replacement: ItemId, expiresAt: nat): Option<Db> {
    if !Recoverable(db, o) then None else
    var order := db.orders[o];
    match ReserveOne(Withdraw(db, order.item, o), replacement, o, order.product, expiresAt)
    case None => None
    case Some(d) => Some(PutOrder(d, o, order.Moved(PendingDelivery, Pending).(item := replacement)))
  }

  /** The refund's inventory write filters on status only, not on the order. */
  function DisableReserved(db: Db, it: ItemId): Db {
    if it in db.items && db.items[it].status.Reserved?
    then PutItem(db, it, db.items[it].(status := Disabled)) else db
  }

  /** `WalletService.credit`: a second credit under a key is a no-op. */
  function CreditOnce(db: Db, key: CreditKey, payout: Payout): Db {
    if key in db.ledger then db
    else db.(ledger := db.ledger + {key}, payouts := db.payouts + [payout])
  }

  /** `active`: the wallet only credits active users; otherwise it throws. */
  function Refund(db: Db, o: OrderId, active: bool): Option<Db> {
    if !Recoverable(db, o) then
      if o in db.orders && db.orders[o].status.Refunded? then Some(db) else None
    else
      var order := db.orders[o];
      if order.total > 0 && !active && DeliveryRefund(o) !in db.ledger then None else
      var paid := if order.total > 0 then CreditOnce(db, DeliveryRefund(o), Payout(o, order.user, order.total)) else db;
      Some(PutOrder(DisableReserved(paid, order.item), o, order.(status := Refunded)))
  }

  // ---- The reservation sweeper and checkout --------------------------------

  /** One iteration of `releaseExpired` on an item reserved for an order.  The
      credit is a plain increment; only the unique ledger key stops a second. */
  function ReleaseExpired(db: Db, it: ItemId, o: OrderId, now: nat, active: bool): Option<Db> {
    if !(o in db.orders && db.orders[o].status.PendingDelivery? && db.orders[o].delivery.Pending?) then None else
    if !(it in db.items && db.items[it].status.Reserved? && db.items[it].reservedOrder == Some(o)
         && db.items[it].ExpiredBy(now))
    then None else
    var order := db.orders[o];
    var freed := PutItem(db, it, db.items[it].(status := Available, reservedOrder := None, expiresAt := None));
    if order.total == 0 then Some(PutOrder(freed, o, order.Moved(Cancelled, Failed))) else
    if !active || ReservationExpired(o) in db.ledger then None else
    Some(PutOrder(freed.(ledger := freed.ledger + {ReservationExpired(o)},
                         payouts := freed.payouts + [Payout(o, order.user, order.total)]),
                  o, order.Moved(Cancelled, Failed)))
  }

  /** `releasePaymentReservations`, on one item. */
  function ReleaseHold(db: Db, it: ItemId, pay: PaymentId): Option<Db> {
    if it in db.items && db.items[it].status.Reserved? && db.items[it].reservedPayment == Some(pay)
    then Some(PutItem(db, it, db.items[it].(status := Available, reservedPayment := None, expiresAt := None)))
    else None
  }

  function ReleaseExpiredHold(db: Db, it: ItemId, pay: PaymentId, now: nat): Option<Db> {
    if it in db.items && db.items[it].ExpiredBy(now) then ReleaseHold(db, it, pay) else None
  }

  /** One row of `findExpired`: the item and whom it was reserved for. */
  datatype ExpiredRow = ExpiredRow(item: ItemId, order: Option<OrderId>, payment: Option<PaymentId>)

  /** One iteration of the sweep; the row may be stale by now. */
  function ReleaseRow(db: Db, row: ExpiredRow, now: nat, active: set<UserId>): Option<Db> {
    if row.payment.Some? && row.order.None? then ReleaseExpiredHold(db, row.item, row.payment.value, now)
    else if row.order.None? then None
    else
      var o := row.order.value;
      ReleaseExpired(db, row.item, o, now, o in db.orders && db.orders[o].user in active)
  }

  function HoldForPayment(db: Db, it: ItemId, pay: PaymentId, p: ProductId, expiresAt: nat): Option<Db> {
    if it in db.items && db.items[it].Free(p)
    then Some(PutItem(db, it, db.items[it].(status := Reserved, reservedPayment := Some(pay),
                                            expiresAt := Some(expiresAt))))
    else None
  }

  function AssignHold(db: Db, it: ItemId, pay: PaymentId, o: OrderId, expiresAt: nat): Option<Db> {
    if it in db.items && db.items[it].status.Reserved? && db.items[it].reservedPayment == Some(pay)
       && !db.items[it].deleted
    then Some(PutItem(db, it, db.items[it].(reservedOrder := Some(o), reservedPayment := None,
                                            expiresAt := Some(expiresAt))))
    else None
  }

  /** A checkout transaction: reserve a free item, or take over a payment hold,
      and create its order. */
  function Checkout(db: Db, o: OrderId, order: Order, hold: Option<PaymentId>, expiresAt: nat): Option<Db> {
    if o in db.orders then None else
    var reserved := match hold
      case None => ReserveOne(db, order.item, o, order.product, expiresAt)
      case Some(pay) => AssignHold(db, order.item, pay, o, expiresAt);
    match reserved
    case None => None
    case Some(d) => Some(PutOrder(d, o, order.Moved(PendingDelivery, Pending)))
  }

  function ImportItem(db: Db, it: ItemId, p: ProductId): Option<Db> {
    if it in db.items then None
    else Some(PutItem(db, it, Item(p, Available, None, None, None, None, false)))
  }

  function RemoveItem(db: Db, it: ItemId): Option<Db> {
    if it in db.items && db.items[it].status.Available? && !db.items[it].deleted
    then Some(PutItem(db, it, db.items[it].(deleted := true))) else None
  }

  function ExtendReservations(db: Db, ids: seq<OrderId>, expiresAt: nat): Db {
    db.(items := map it | it in db.items ::
      if db.items[it].reservedOrder.Some? && db.items[it].reservedOrder.value in ids
         && db.items[it].status.Reserved? && !db.items[it].deleted
      then db.items[it].(expiresAt := Some(expiresAt)) else db.items[it])
  }
}
