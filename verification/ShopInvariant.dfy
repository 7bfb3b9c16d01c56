/**
 What every operation on the shop's collections keeps.  An order that can still
 change holds exactly its own item; a delivered order has that item sold to it;
 a refunded or cancelled order was paid back its total once and holds nothing.
 No fact about the worker that performs an operation is needed: the conditional
 writes alone protect the database from stale workers.
 */
module ShopInvariant {
  import opened Wrappers
  import opened ShopDatabase

  function PayoutsFor(log: seq<Payout>, o: OrderId): seq<Payout> {
    if log == [] then []
    else
      var p := log[|log| - 1];
      PayoutsFor(log[..|log| - 1], o) + if p.order == o then [p] else []
  }

  function Owed(db: Db, o: OrderId): seq<Payout> {
    if o in db.orders && (db.orders[o].status.Refunded? || db.orders[o].status.Cancelled?) && db.orders[o].total > 0
    then [Payout(o, db.orders[o].user, db.orders[o].total)] else []
  }

  predicate Coupled(order: Order) {
    match order.status
    case PendingDelivery => order.delivery.Pending?
    case Delivering => order.delivery.Processing?
    case Delivered => order.delivery.Done?
    case _ => order.delivery.Failed?
  }

  predicate SoldTo(db: Db, it: ItemId, o: OrderId) {
    it in db.items && db.items[it].status.Sold? && db.items[it].soldOrder == Some(o)
  }

  predicate OrderOk(db: Db, o: OrderId)
    requires o in db.orders
  {
    var order := db.orders[o];
    && Coupled(order)
    && order.item in db.items
    && (order.Live() ==> db.items[order.item].HeldFor(o))
    && (order.status.Delivered? ==> SoldTo(db, order.item, o))
    && (order.status.Refunded? ==> db.items[order.item].status.Disabled?)
  }

  predicate ItemOk(db: Db, it: ItemId)
    requires it in db.items
  {
    var item := db.items[it];
    match item.status
    case Available => item.reservedOrder.None? && item.reservedPayment.None? && item.soldOrder.None?
    case Reserved =>
      && !item.deleted && item.soldOrder.None?
      && (item.reservedOrder.Some? <==> item.reservedPayment.None?)
      && (item.reservedOrder.Some? ==>
            var o := item.reservedOrder.value;
            o in db.orders && db.orders[o].Live() && db.orders[o].item == it)
    case Sold =>
      && item.soldOrder.Some?
      && var o := item.soldOrder.value;
         o in db.orders && db.orders[o].status.Delivered? && db.orders[o].item == it
    case Disabled => item.soldOrder.None?
  }

  predicate KeyOk(db: Db, key: CreditKey) {
    && key.order in db.orders
    && match key
       case DeliveryRefund(o) => db.orders[o].status.Refunded?
       case ReservationExpired(o) => db.orders[o].status.Cancelled?
  }

  ghost predicate Inv(db: Db) {
    && (forall o :: o in db.orders ==> OrderOk(db, o))
    && (forall it :: it in db.items ==> ItemOk(db, it))
    && (forall key :: key in db.ledger ==> KeyOk(db, key))
    && (forall o :: PayoutsFor(db.payouts, o) == Owed(db, o))
  }

  /** What no step may undo: an order keeps its buyer, product, price and group;
      a final order, a sold item and a withdrawn item never change again; and no
      payout is taken back. */
  predicate SameIdentity(a: Order, b: Order) {
    a.user == b.user && a.product == b.product && a.total == b.total && a.group == b.group && a.createdAt == b.createdAt
  }

  ghost predicate Advances(db: Db, next: Db) {
    && db.orders.Keys <= next.orders.Keys
    && db.items.Keys <= next.items.Keys
    && (forall o :: o in db.orders ==> SameIdentity(db.orders[o], next.orders[o]))
    && (forall o :: o in db.orders && db.orders[o].Final() ==> next.orders[o] == db.orders[o])
    && (forall it :: it in db.items && (db.items[it].status.Sold? || db.items[it].status.Disabled?) ==>
         next.items[it] == db.items[it])
    && db.payouts <= next.payouts
  }

  ghost predicate Good(db: Db, next: Db) { Inv(next) && Advances(db, next) }

  lemma GoodThen(a: Db, b: Db, c: Db)
    requires Good(a, b) && Good(b, c)
    ensures Good(a, c)
  {
  }

  lemma PayoutAppended(log: seq<Payout>, p: Payout, o: OrderId)
    ensures PayoutsFor(log + [p], o) == PayoutsFor(log, o) + if p.order == o then [p] else []
  {
  }

  // ---- Updates of one order, or of one item --------------------------------

  /** An order moves between live statuses and keeps its item. */
  lemma LiveMove(db: Db, o: OrderId, order: Order)
    requires Inv(db) && o in db.orders && db.orders[o].Live()
    requires SameIdentity(db.orders[o], order) && order.item == db.orders[o].item && order.Live() && Coupled(order)
    ensures Good(db, PutOrder(db, o, order))
  {
    var next := PutOrder(db, o, order);
    forall p ensures PayoutsFor(next.payouts, p) == Owed(next, p) {
      assert PayoutsFor(db.payouts, p) == Owed(db, p);
    }
    forall it | it in next.items ensures ItemOk(next, it) { assert ItemOk(db, it); }
    forall q | q in next.orders ensures OrderOk(next, q) { assert OrderOk(db, q) && OrderOk(db, o); }
  }

  /** Many orders move between live statuses at once. */
  lemma LiveMoves(db: Db, next: Db)
    requires Inv(db)
    requires next.items == db.items && next.ledger == db.ledger && next.payouts == db.payouts
    requires next.orders.Keys == db.orders.Keys
    requires forall o :: o in db.orders ==>
      || next.orders[o] == db.orders[o]
      || (&& db.orders[o].Live() && next.orders[o].Live() && Coupled(next.orders[o])
          && SameIdentity(db.orders[o], next.orders[o]) && next.orders[o].item == db.orders[o].item)
    ensures Good(db, next)
  {
    forall p ensures PayoutsFor(next.payouts, p) == Owed(next, p) {
      assert PayoutsFor(db.payouts, p) == Owed(db, p);
    }
    forall it | it in next.items ensures ItemOk(next, it) { assert ItemOk(db, it); }
    forall q | q in next.orders ensures OrderOk(next, q) { assert OrderOk(db, q); }
    forall key | key in next.ledger ensures KeyOk(next, key) { assert KeyOk(db, key); }
  }

  // ---- The delivery worker -------------------------------------------------

  lemma MarkDeliveringKeeps(db: Db, o: OrderId)
    requires Inv(db) && MarkDelivering(db, o).Some?
    ensures Good(db, MarkDelivering(db, o).value)
  {
    LiveMove(db, o, db.orders[o].Moved(Delivering, Processing));
  }

  lemma MoveAllKeeps(db: Db, ids: seq<OrderId>, from: OrderStatus, s: OrderStatus, d: DeliveryStatus)
    requires Inv(db)
    requires from.PendingDelivery? || from.Delivering?
    requires (s.Delivering? && d.Processing?) || (s.PendingDelivery? && d.Pending?)
    ensures Good(db, MoveAll(db, ids, from, s, d))
  {
    LiveMoves(db, MoveAll(db, ids, from, s, d));
  }

  lemma MarkDeliveryFailedKeeps(db: Db, o: OrderId)
    requires Inv(db) && MarkDeliveryFailed(db, o).Some?
    ensures Good(db, MarkDeliveryFailed(db, o).value)
  {
    LiveMove(db, o, db.orders[o].Moved(DeliveryFailed, Failed));
  }

  lemma FailGroupKeeps(db: Db, like: Order)
    requires Inv(db)
    ensures Good(db, FailGroup(db, like))
  {
    LiveMoves(db, FailGroup(db, like));
  }

  predicate SoldBy(ds: seq<Delivery>, it: ItemId, before: Item, after: Item) {
    exists d :: d in ds && d.item == it && before.HeldFor(d.order)
             && after == before.(status := Sold, soldOrder := Some(d.order), expiresAt := None)
  }

  /** What `SellAll` does to each item, and that it sold every one of `ds`. */
  lemma {:induction false} SellAllEffect(items: map<ItemId, Item>, ds: seq<Delivery>)
    requires SellAll(items, ds).Some?
    ensures var after := SellAll(items, ds).value;
      && after.Keys == items.Keys
      && (forall d :: d in ds ==>
            d.item in items && after[d.item].status.Sold? && after[d.item].soldOrder == Some(d.order))
      && (forall it :: it in items && after[it] != items[it] ==> SoldBy(ds, it, items[it], after[it]))
  {
    if ds != [] {
      var Delivery(o, it) := ds[0];
      var sold := items[it].(status := Sold, soldOrder := Some(o), expiresAt := None);
      var mid := if items[it].HeldFor(o) then items[it := sold] else items;
      SellAllEffect(mid, ds[1..]);
      var after := SellAll(items, ds).value;
      assert after == SellAll(mid, ds[1..]).value;
      assert !mid[it].status.Reserved?;
      forall i | i in items && after[i] != items[i] ensures SoldBy(ds, i, items[i], after[i]) {
        if i == it { assert ds[0] in ds; }
        else {
          var d :| d in ds[1..] && d.item == i && mid[i].HeldFor(d.order)
                && after[i] == mid[i].(status := Sold, soldOrder := Some(d.order), expiresAt := None);
          assert d in ds;
        }
      }
    }
  }

  lemma InOrdersOf(ds: seq<Delivery>, o: OrderId)
    ensures o in OrdersOf(ds) <==> exists d :: d in ds && d.order == o
  {
  }

  /** In a good database each delivery of a committed confirmation is of an
      order's own item, and the order was live or already delivered. */
  lemma ConfirmedOrder(db: Db, ds: seq<Delivery>, d: Delivery)
    requires Inv(db) && SellAll(db.items, ds).Some? && d in ds
    ensures d.order in db.orders && db.orders[d.order].item == d.item
    ensures db.orders[d.order].Live() || db.orders[d.order].status.Delivered?
  {
    SellAllEffect(db.items, ds);
    assert ItemOk(db, d.item);
  }

  lemma ConfirmedIds(db: Db, ds: seq<Delivery>, q: OrderId) returns (d: Delivery)
    requires Inv(db) && SellAll(db.items, ds).Some? && q in OrdersOf(ds)
    ensures d in ds && d.order == q && q in db.orders && db.orders[q].item == d.item
    ensures db.orders[q].Live() || db.orders[q].status.Delivered?
  {
    InOrdersOf(ds, q);
    d :| d in ds && d.order == q;
    ConfirmedOrder(db, ds, d);
  }

  lemma ConfirmKeepsOrder(db: Db, ds: seq<Delivery>, q: OrderId)
    requires Inv(db) && ConfirmDelivery(db, ds).Some? && q in db.orders
    ensures OrderOk(ConfirmDelivery(db, ds).value, q)
    ensures SameIdentity(db.orders[q], ConfirmDelivery(db, ds).value.orders[q])
    ensures db.orders[q].Final() ==> ConfirmDelivery(db, ds).value.orders[q] == db.orders[q]
  {
    SellAllEffect(db.items, ds);
    assert OrderOk(db, q);
    var it := db.orders[q].item;
    if q in OrdersOf(ds) {
      var d := ConfirmedIds(db, ds, q);
    } else if SellAll(db.items, ds).value[it] != db.items[it] {
      assert SoldBy(ds, it, db.items[it], SellAll(db.items, ds).value[it]);
      var d :| d in ds && d.item == it && db.items[it].HeldFor(d.order);
      InOrdersOf(ds, d.order);
      ConfirmedOrder(db, ds, d);
    }
  }

  lemma ConfirmKeepsItem(db: Db, ds: seq<Delivery>, i: ItemId)
    requires Inv(db) && ConfirmDelivery(db, ds).Some? && i in db.items
    ensures i in ConfirmDelivery(db, ds).value.items && ItemOk(ConfirmDelivery(db, ds).value, i)
  {
    SellAllEffect(db.items, ds);
    assert ItemOk(db, i);
    var after := SellAll(db.items, ds).value;
    if after[i] != db.items[i] {
      assert SoldBy(ds, i, db.items[i], after[i]);
      var d :| d in ds && d.item == i && db.items[i].HeldFor(d.order)
            && after[i] == db.items[i].(status := Sold, soldOrder := Some(d.order), expiresAt := None);
      InOrdersOf(ds, d.order);
      ConfirmedOrder(db, ds, d);
    } else if db.items[i].status.Reserved? && db.items[i].reservedOrder.Some? &&
      db.items[i].reservedOrder.value in OrdersOf(ds) {
      var d := ConfirmedIds(db, ds, db.items[i].reservedOrder.value);
    }
  }

  lemma ConfirmDeliveryKeeps(db: Db, ds: seq<Delivery>)
    requires Inv(db) && ConfirmDelivery(db, ds).Some?
    ensures Good(db, ConfirmDelivery(db, ds).value)
  {
    SellAllEffect(db.items, ds);
    var next := ConfirmDelivery(db, ds).value;
    forall q | q in db.orders
      ensures OrderOk(next, q) && SameIdentity(db.orders[q], next.orders[q])
      ensures db.orders[q].Final() ==> next.orders[q] == db.orders[q]
    { ConfirmKeepsOrder(db, ds, q); }
    forall i | i in next.items ensures ItemOk(next, i) { ConfirmKeepsItem(db, ds, i); }
    forall i | i in db.items && next.items[i] != db.items[i] ensures db.items[i].status.Reserved? {
      assert SoldBy(ds, i, db.items[i], next.items[i]);
    }
    forall p ensures PayoutsFor(next.payouts, p) == Owed(next, p) {
      assert PayoutsFor(db.payouts, p) == Owed(db, p);
      if p in OrdersOf(ds) { var d := ConfirmedIds(db, ds, p); }
    }
    forall key | key in next.ledger ensures KeyOk(next, key) {
      assert KeyOk(db, key) && db.orders[key.order].Final();
    }
  }

  // ---- Admin recovery ------------------------------------------------------

  lemma ResendKeeps(db: Db, o: OrderId)
    requires Inv(db) && Resend(db, o).Some?
    ensures Good(db, Resend(db, o).value)
  {
    LiveMove(db, o, db.orders[o].Moved(PendingDelivery, Pending));
  }

  lemma QueueRejectedKeeps(db: Db, o: OrderId)
    requires Inv(db)
    ensures Good(db, QueueRejected(db, o))
  {
    if o in db.orders && db.orders[o].status.PendingDelivery? {
      LiveMove(db, o, db.orders[o].Moved(DeliveryFailed, Failed));
    }
  }

  /** A replacement withdraws the old item and holds a free one of the product. */
  lemma ReplaceSwaps(db: Db, o: OrderId, replacement: ItemId, expiresAt: nat)
    requires Inv(db) && Replace(db, o, replacement, expiresAt).Some?
    ensures var next := Replace(db, o, replacement, expiresAt).value; var was := db.orders[o].item;
      && next.orders == db.orders[o := db.orders[o].Moved(PendingDelivery, Pending).(item := replacement)]
      && db.items[replacement].Free(db.orders[o].product) && next.items[replacement].HeldFor(o)
      && was != replacement && next.items[was].status.Disabled?
      && forall i :: i in db.items && i != was && i != replacement ==> next.items[i] == db.items[i]
  {
    assert OrderOk(db, o);
  }

  /** One order is new or live, and live afterwards: payouts and their keys stay right. */
  lemma OwedStays(db: Db, next: Db, o: OrderId)
    requires Inv(db) && next.payouts == db.payouts && next.ledger == db.ledger && o in next.orders
    requires next.orders == db.orders[o := next.orders[o]] && next.orders[o].Live()
    requires o in db.orders ==> db.orders[o].Live()
    ensures forall p :: PayoutsFor(next.payouts, p) == Owed(next, p)
    ensures forall key :: key in next.ledger ==> KeyOk(next, key)
  {
    forall p ensures PayoutsFor(next.payouts, p) == Owed(next, p) {
      assert PayoutsFor(db.payouts, p) == Owed(db, p);
    }
    forall key | key in next.ledger ensures KeyOk(next, key) { assert KeyOk(db, key); }
  }

  lemma ReplaceOrders(db: Db, o: OrderId, replacement: ItemId, expiresAt: nat)
    requires Inv(db) && Replace(db, o, replacement, expiresAt).Some?
    ensures var next := Replace(db, o, replacement, expiresAt).value; forall q :: q in next.orders ==> OrderOk(next, q)
  {
    var next := Replace(db, o, replacement, expiresAt).value;
    ReplaceSwaps(db, o, replacement, expiresAt);
    assert OrderOk(db, o) && ItemOk(db, replacement);
    forall q | q in next.orders ensures OrderOk(next, q) { assert OrderOk(db, q); }
  }

  lemma ReplaceItems(db: Db, o: OrderId, replacement: ItemId, expiresAt: nat)
    requires Inv(db) && Replace(db, o, replacement, expiresAt).Some?
    ensures var next := Replace(db, o, replacement, expiresAt).value; forall i :: i in next.items ==> ItemOk(next, i)
  {
    var next := Replace(db, o, replacement, expiresAt).value;
    ReplaceSwaps(db, o, replacement, expiresAt);
    forall i | i in next.items ensures ItemOk(next, i) { assert ItemOk(db, i); }
  }

  lemma ReplaceAdvances(db: Db, o: OrderId, replacement: ItemId, expiresAt: nat)
    requires Inv(db) && Replace(db, o, replacement, expiresAt).Some?
    ensures Advances(db, Replace(db, o, replacement, expiresAt).value)
  {
    assert OrderOk(db, o);
  }

  lemma ReplaceKeeps(db: Db, o: OrderId, replacement: ItemId, expiresAt: nat)
    requires Inv(db) && Replace(db, o, replacement, expiresAt).Some?
    ensures Good(db, Replace(db, o, replacement, expiresAt).value)
  {
    ReplaceOrders(db, o, replacement, expiresAt);
    ReplaceItems(db, o, replacement, expiresAt);
    ReplaceAdvances(db, o, replacement, expiresAt);
    OwedStays(db, Replace(db, o, replacement, expiresAt).value, o);
  }

  lemma ClosedPayout(db: Db, next: Db, o: OrderId, order: Order, p: OrderId)
    requires o in db.orders && db.orders[o].Live() && (order.status.Refunded? || order.status.Cancelled?)
    requires next.orders == db.orders[o := order]
    requires next.payouts == db.payouts + if order.total > 0 then [Payout(o, order.user, order.total)] else []
    requires PayoutsFor(db.payouts, p) == Owed(db, p)
    ensures PayoutsFor(next.payouts, p) == Owed(next, p)
  {
    if order.total > 0 {
      PayoutAppended(db.payouts, Payout(o, order.user, order.total), p);
      if p == o { OwedWhenLive(db, o); } else { assert Owed(next, p) == Owed(db, p); }
    } else {
      assert next.payouts == db.payouts;
      if p == o { OwedWhenLive(db, o); } else { assert Owed(next, p) == Owed(db, p); }
    }
  }

  lemma OwedWhenLive(db: Db, o: OrderId)
    requires o in db.orders && db.orders[o].Live()
    ensures Owed(db, o) == []
  {
  }

  /** An order leaves for good: it gives its item up, and is paid back. */
  lemma Closed(db: Db, next: Db, o: OrderId, item: Item, order: Order)
    requires Inv(db) && o in db.orders && db.orders[o].Live()
    requires order.status.Refunded? || order.status.Cancelled?
    requires Coupled(order) && SameIdentity(db.orders[o], order) && order.item == db.orders[o].item
    requires item.soldOrder.None? && (order.status.Refunded? <==> item.status.Disabled?)
    requires item.status.Disabled? || (item.status.Available? && item.reservedOrder.None? && item.reservedPayment.None?)
    requires next.orders == db.orders[o := order] && next.items == db.items[order.item := item]
    requires next.payouts == db.payouts + if order.total > 0 then [Payout(o, order.user, order.total)] else []
    requires next.ledger <= db.ledger + {if order.status.Refunded? then DeliveryRefund(o) else ReservationExpired(o)}
    ensures Good(db, next)
  {
    assert OrderOk(db, o);
    forall q | q in next.orders ensures OrderOk(next, q) { assert OrderOk(db, q); }
    forall i | i in next.items ensures ItemOk(next, i) { assert ItemOk(db, i); }
    forall p ensures PayoutsFor(next.payouts, p) == Owed(next, p) {
      assert PayoutsFor(db.payouts, p) == Owed(db, p);
      ClosedPayout(db, next, o, order, p);
    }
    forall key | key in next.ledger ensures KeyOk(next, key) {
      if key in db.ledger { assert KeyOk(db, key); }
    }
  }

  lemma RefundKeeps(db: Db, o: OrderId, active: bool)
    requires Inv(db) && Refund(db, o, active).Some?
    ensures Good(db, Refund(db, o, active).value)
  {
    if Recoverable(db, o) {
      var order := db.orders[o];
      assert OrderOk(db, o) && ItemOk(db, order.item);
      assert DeliveryRefund(o) in db.ledger ==> KeyOk(db, DeliveryRefund(o));
      Closed(db, Refund(db, o, active).value, o, db.items[order.item].(status := Disabled), order.(status := Refunded));
    }
  }

  lemma ReleaseExpiredKeeps(db: Db, it: ItemId, o: OrderId, now: nat, active: bool)
    requires Inv(db) && ReleaseExpired(db, it, o, now, active).Some?
    ensures Good(db, ReleaseExpired(db, it, o, now, active).value)
  {
    assert ItemOk(db, it);
    Closed(db, ReleaseExpired(db, it, o, now, active).value, o,
           db.items[it].(status := Available, reservedOrder := None, expiresAt := None),
           db.orders[o].Moved(Cancelled, Failed));
  }

  // ---- Checkout and stock --------------------------------------------------

  /** A new order with an item that was free or held for its payment. */
  lemma NewOrderKeeps(db: Db, next: Db, o: OrderId, it: ItemId)
    requires Inv(db) && o !in db.orders && o in next.orders && it in db.items && it in next.items
    requires next.payouts == db.payouts && next.ledger == db.ledger
    requires next.orders == db.orders[o := next.orders[o]] && next.items == db.items[it := next.items[it]]
    requires next.orders[o].status.PendingDelivery? && next.orders[o].delivery.Pending? && next.orders[o].item == it
    requires next.items[it].HeldFor(o) && next.items[it].reservedPayment.None? && next.items[it].soldOrder.None?
    requires db.items[it].status.Available? || (db.items[it].status.Reserved? && db.items[it].reservedOrder.None?)
    ensures Good(db, next)
  {
    forall q | q in next.orders ensures OrderOk(next, q) { if q != o { assert OrderOk(db, q); } }
    forall i | i in next.items ensures ItemOk(next, i) { assert ItemOk(db, i); }
    OwedStays(db, next, o);
  }

  lemma CheckoutKeeps(db: Db, o: OrderId, order: Order, hold: Option<PaymentId>, expiresAt: nat)
    requires Inv(db) && Checkout(db, o, order, hold, expiresAt).Some?
    ensures Good(db, Checkout(db, o, order, hold, expiresAt).value)
  {
    assert ItemOk(db, order.item);
    NewOrderKeeps(db, Checkout(db, o, order, hold, expiresAt).value, o, order.item);
  }

  lemma ReleaseHoldKeeps(db: Db, it: ItemId, pay: PaymentId)
    requires Inv(db) && ReleaseHold(db, it, pay).Some?
    ensures Good(db, ReleaseHold(db, it, pay).value)
  {
  }

  lemma ReleaseRowKeeps(db: Db, row: ExpiredRow, now: nat, active: set<UserId>)
    requires Inv(db) && ReleaseRow(db, row, now, active).Some?
    ensures Good(db, ReleaseRow(db, row, now, active).value)
  {
    if row.payment.Some? && row.order.None? { ReleaseHoldKeeps(db, row.item, row.payment.value); }
    else {
      var o := row.order.value;
      ReleaseExpiredKeeps(db, row.item, o, now, o in db.orders && db.orders[o].user in active);
    }
  }

  lemma HoldForPaymentKeeps(db: Db, it: ItemId, pay: PaymentId, p: ProductId, expiresAt: nat)
    requires Inv(db) && HoldForPayment(db, it, pay, p, expiresAt).Some?
    ensures Good(db, HoldForPayment(db, it, pay, p, expiresAt).value)
  {
  }

  lemma ImportItemKeeps(db: Db, it: ItemId, p: ProductId)
    requires Inv(db) && ImportItem(db, it, p).Some?
    ensures Good(db, ImportItem(db, it, p).value)
  {
  }

  lemma RemoveItemKeeps(db: Db, it: ItemId)
    requires Inv(db) && RemoveItem(db, it).Some?
    ensures Good(db, RemoveItem(db, it).value)
  {
  }

  lemma ExtendReservationsKeeps(db: Db, ids: seq<OrderId>, expiresAt: nat)
    requires Inv(db)
    ensures Good(db, ExtendReservations(db, ids, expiresAt))
  {
  }
}
