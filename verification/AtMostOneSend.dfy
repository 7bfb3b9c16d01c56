/**
 A customer who bought a single order is messaged at most once, apart from
 attempts that Telegram confirmed it did not deliver.  This holds for an order
 outside a payment group as long as no admin resends or replaces it: duplicate
 jobs, concurrent workers, crashes, expiry and refunds do not matter.
 */
module AtMostOneSend {
  import opened Wrappers
  import opened ShopDatabase
  import opened ShopInvariant
  import opened DeliveryProtocol

  /** Sends of `o` that may have reached the customer. */
  function PossibleSends(sends: seq<Send>, o: OrderId): nat {
    if sends == [] then 0
    else
      var last := sends[|sends| - 1];
      PossibleSends(sends[..|sends| - 1], o) + if o in OrdersOf(last.deliveries) && !last.answer.Rejected? then 1 else 0
  }

  /** The orders a worker in this phase would act on. */
  function Listed(phase: Phase): seq<OrderId> {
    match phase
    case Grouped(ids) => ids
    case Taken(ids) => ids
    case Stocked(ds) => OrdersOf(ds)
    case Sent(ds) => OrdersOf(ds)
    case Reverting(ids) => ids
    case _ => []
  }

  /** The worker holds the claim on `o` and has not sent since, or was rejected. */
  predicate Holding(worker: Worker, o: OrderId) {
    && worker.order == o
    && var p := worker.phase; p.Claimed? || p.Grouped? || p.Taken? || p.Stocked? || p.Reverting?
  }

  predicate Holds(s: System, w: nat, o: OrderId) { w in s.workers && Holding(s.workers[w], o) }

  /** A worker whose list has `o` is working on `o`. */
  predicate OwnList(worker: Worker, o: OrderId) { o in Listed(worker.phase) ==> worker.order == o }

  /** The order cannot be claimed again without an admin, nor released. */
  predicate Committing(db: Db, o: OrderId) {
    o in db.orders && !db.orders[o].status.PendingDelivery? && !db.orders[o].status.Cancelled?
  }

  ghost predicate Untouched(s: System, o: OrderId) {
    && PossibleSends(s.sends, o) == 0
    && (forall w :: w in s.workers ==> !Holding(s.workers[w], o) && o !in Listed(s.workers[w].phase))
  }

  ghost predicate AtMostOnce(s: System, o: OrderId) {
    && (forall w :: w in s.workers ==> OwnList(s.workers[w], o))
    && (forall v, w :: Holds(s, v, o) && Holds(s, w, o) ==> v == w)
    && (forall w :: Holds(s, w, o) ==> Committing(s.db, o) && PossibleSends(s.sends, o) == 0)
    && PossibleSends(s.sends, o) <= 1
    && (PossibleSends(s.sends, o) == 1 ==> Committing(s.db, o))
  }

  ghost predicate Guarded(s: System, o: OrderId) {
    if o !in s.db.orders then Untouched(s, o)
    else s.db.orders[o].group.None? ==> AtMostOnce(s, o)
  }

  /** No admin resends or replaces `o`. */
  predicate Unassisted(a: Action, o: OrderId) {
    a != Outside(AdminResend(o)) && (a.Outside? && a.event.AdminReplace? ==> a.event.o != o)
  }

  // ---- One move ------------------------------------------------------------

  lemma MoveLists(db: Db, worker: Option<Worker>, m: Move, o: OrderId)
    requires worker.Some? ==> OwnList(worker.value, o)
    requires o in db.orders ==> db.orders[o].group.None?
    ensures var t := Moved(db, worker, m); t.worker.Some? ==> OwnList(t.worker.value, o)
    ensures var t := Moved(db, worker, m);
      o !in db.orders && t.worker.Some? && (worker.Some? ==> o !in Listed(worker.value.phase)) ==>
        o !in Listed(t.worker.value.phase)
  {
  }

  /** Only a successful claim of a pending order makes a new holder. */
  lemma MoveHolds(db: Db, worker: Option<Worker>, m: Move, o: OrderId)
    requires Moved(db, worker, m).worker.Some? && Holding(Moved(db, worker, m).worker.value, o)
    requires worker.Some? ==> !Holding(worker.value, o)
    ensures m.Claim? && o in db.orders && db.orders[o].status.PendingDelivery?
    ensures Committing(Moved(db, worker, m).db, o) && Moved(db, worker, m).sent.None?
  {
  }

  /** Only the holder can send or reopen the order, and either ends its hold
      unless Telegram confirmed that nothing was delivered. */
  lemma MoveCommits(db: Db, worker: Option<Worker>, m: Move, o: OrderId)
    requires Committing(db, o) && (worker.Some? ==> OwnList(worker.value, o))
    ensures var t := Moved(db, worker, m);
      Committing(t.db, o) || (worker.Some? && Holding(worker.value, o) && t.worker.None?)
  {
  }

  lemma MoveSends(db: Db, worker: Option<Worker>, m: Move, o: OrderId)
    requires worker.Some? ==> OwnList(worker.value, o)
    ensures var t := Moved(db, worker, m);
      t.sent.Some? && o in OrdersOf(t.sent.value.deliveries) ==>
        && worker.Some? && Holding(worker.value, o) && t.db == db
        && (!t.sent.value.answer.Rejected? ==> t.worker.Some? && !Holding(t.worker.value, o))
  {
  }

  lemma EventCommits(db: Db, e: Event, o: OrderId)
    requires Committing(db, o) && Unassisted(Outside(e), o) && Happened(db, e).Some?
    ensures Committing(Happened(db, e).value, o)
  {
  }

  // ---- Every step, and every run -------------------------------------------

  lemma SentCount(s: System, w: nat, m: Move, o: OrderId)
    ensures PossibleSends(Step(s, Work(w, m)).sends, o) == PossibleSends(s.sends, o) +
      var t := TurnOf(s, w, m);
      if t.sent.Some? && o in OrdersOf(t.sent.value.deliveries) && !t.sent.value.answer.Rejected? then 1 else 0
  {
  }

  lemma UntouchedKept(s: System, w: nat, m: Move, o: OrderId)
    requires Inv(s.db) && o !in s.db.orders && Untouched(s, o)
    ensures Guarded(Step(s, Work(w, m)), o)
  {
    var worker := WorkerAt(s, w);
    var t := TurnOf(s, w, m);
    MoveLists(s.db, worker, m, o);
    MoveSends(s.db, worker, m, o);
    SentCount(s, w, m, o);
    if t.worker.Some? && Holding(t.worker.value, o) { MoveHolds(s.db, worker, m, o); }
    assert o !in t.db.orders by { MoveAddsNoOrder(s.db, worker, m); }
  }

  lemma MoveAddsNoOrder(db: Db, worker: Option<Worker>, m: Move)
    ensures Moved(db, worker, m).db.orders.Keys == db.orders.Keys
  {
  }

  lemma OnceKept(s: System, w: nat, m: Move, o: OrderId)
    requires o in s.db.orders && s.db.orders[o].group.None? && AtMostOnce(s, o)
    ensures AtMostOnce(Step(s, Work(w, m)), o)
  {
    var worker := WorkerAt(s, w);
    var t := TurnOf(s, w, m);
    var next := Step(s, Work(w, m));
    assert worker.Some? ==> OwnList(worker.value, o);
    assert worker.Some? && Holding(worker.value, o) ==> Holds(s, w, o);
    MoveLists(s.db, worker, m, o);
    MoveSends(s.db, worker, m, o);
    SentCount(s, w, m, o);
    if Committing(s.db, o) { MoveCommits(s.db, worker, m, o); }
    if Holds(next, w, o) && !Holds(s, w, o) { MoveHolds(s.db, worker, m, o); }
    forall v | v != w && Holds(next, v, o) ensures Holds(s, v, o) && !Holds(next, w, o) {
      assert Holds(s, v, o);
    }
    forall v, u | v != w && u != w && Holds(next, v, o) && Holds(next, u, o) ensures v == u {
      assert Holds(s, v, o) && Holds(s, u, o);
    }
  }

  lemma GuardedStep(s: System, a: Action, o: OrderId)
    requires Inv(s.db) && Guarded(s, o) && Unassisted(a, o)
    ensures Guarded(Step(s, a), o)
  {
    StepKeeps(s, a);
    match a
    case Work(w, m) =>
      if o !in s.db.orders { UntouchedKept(s, w, m, o); }
      else if s.db.orders[o].group.None? { OnceKept(s, w, m, o); }
    case Outside(e) =>
      var next := Step(s, a);
      forall w | Holds(next, w, o) ensures Holds(s, w, o) { }
      if o in s.db.orders && Committing(s.db, o) && Happened(s.db, e).Some? { EventCommits(s.db, e, o); }
  }

  lemma {:induction false} GuardedRun(s: System, actions: seq<Action>, o: OrderId)
    requires Inv(s.db) && Guarded(s, o) && forall a :: a in actions ==> Unassisted(a, o)
    ensures Inv(Run(s, actions).db) && Guarded(Run(s, actions), o)
    decreases |actions|
  {
    if actions != [] {
      StepKeeps(s, actions[0]);
      GuardedStep(s, actions[0], o);
      GuardedRun(Step(s, actions[0]), actions[1..], o);
    }
  }

  /** Main result: with duplicate jobs, concurrent workers and crashes, at most
      one send of an ungrouped order was not a confirmed rejection. */
  lemma SentAtMostOnce(actions: seq<Action>, o: OrderId)
    requires forall a :: a in actions ==> Unassisted(a, o)
    requires var db := Run(INITIAL, actions).db; o in db.orders && db.orders[o].group.None?
    ensures PossibleSends(Run(INITIAL, actions).sends, o) <= 1
  {
    GuardedRun(INITIAL, actions, o);
  }

  // ---- The item that was sent ----------------------------------------------

  /** The items a worker is about to send, or has sent. */
  function InHand(phase: Phase): seq<Delivery> {
    match phase
    case Stocked(ds) => ds
    case Sent(ds) => ds
    case _ => []
  }

  /** Every delivery of `o` is of the item the order still has. */
  predicate Current(db: Db, ds: seq<Delivery>, o: OrderId) {
    forall k :: 0 <= k < |ds| && ds[k].order == o ==> o in db.orders && db.orders[o].item == ds[k].item
  }

  ghost predicate AllCurrent(s: System, o: OrderId) {
    && (forall w :: w in s.workers ==> Current(s.db, InHand(s.workers[w].phase), o))
    && (forall k :: 0 <= k < |s.sends| ==> Current(s.db, s.sends[k].deliveries, o))
  }

  /** Only a replacement gives an order another item. */
  lemma ItemStays(s: System, a: Action, o: OrderId)
    requires Inv(s.db) && o in s.db.orders && Unassisted(a, o)
    ensures o in Step(s, a).db.orders && Step(s, a).db.orders[o].item == s.db.orders[o].item
  {
    StepKeeps(s, a);
    match a
    case Work(w, m) => MoveKeepsItem(s.db, WorkerAt(s, w), m, o);
    case Outside(e) => if Happened(s.db, e).Some? { EventKeepsItem(s.db, e, o); }
  }

  lemma MoveKeepsItem(db: Db, worker: Option<Worker>, m: Move, o: OrderId)
    requires o in db.orders
    ensures o in Moved(db, worker, m).db.orders && Moved(db, worker, m).db.orders[o].item == db.orders[o].item
  {
  }

  lemma EventKeepsItem(db: Db, e: Event, o: OrderId)
    requires o in db.orders && Unassisted(Outside(e), o) && Happened(db, e).Some?
    ensures o in Happened(db, e).value.orders && Happened(db, e).value.orders[o].item == db.orders[o].item
  {
  }

  /** A worker takes in hand only items held for their orders. */
  lemma MoveTakesHeld(db: Db, worker: Option<Worker>, m: Move, o: OrderId)
    requires Inv(db) && (worker.Some? ==> Current(db, InHand(worker.value.phase), o))
    ensures var t := Moved(db, worker, m);
      && (t.worker.Some? ==> Current(db, InHand(t.worker.value.phase), o))
      && (t.sent.Some? ==> Current(db, t.sent.value.deliveries, o))
  {
    if worker.Some? && worker.value.phase.Taken? && m.ReadStock? && StockListing(db, worker.value.phase.ids, m.stock) {
      HeldIsCurrent(db, m.stock, o);
    }
  }

  lemma HeldIsCurrent(db: Db, ds: seq<Delivery>, o: OrderId)
    requires Inv(db) && forall k :: 0 <= k < |ds| ==>
             ds[k].item in db.items && db.items[ds[k].item].HeldFor(ds[k].order)
    ensures Current(db, ds, o)
  {
    forall k | 0 <= k < |ds| && ds[k].order == o ensures o in db.orders && db.orders[o].item == ds[k].item {
      assert ItemOk(db, ds[k].item);
    }
  }

  lemma CurrentStep(s: System, a: Action, o: OrderId)
    requires Inv(s.db) && AllCurrent(s, o) && Unassisted(a, o)
    ensures AllCurrent(Step(s, a), o)
  {
    var next := Step(s, a);
    if o in s.db.orders { ItemStays(s, a, o); }
    if a.Work? {
      assert a.w in s.workers ==> Current(s.db, InHand(s.workers[a.w].phase), o);
      MoveTakesHeld(s.db, WorkerAt(s, a.w), a.move, o);
      CurrentLater(s.db, next.db, TurnOf(s, a.w, a.move), o);
    }
  }

  lemma CurrentLater(db: Db, next: Db, t: Turn, o: OrderId)
    requires o in db.orders ==> o in next.orders && next.orders[o].item == db.orders[o].item
    requires t.worker.Some? ==> Current(db, InHand(t.worker.value.phase), o)
    requires t.sent.Some? ==> Current(db, t.sent.value.deliveries, o)
    ensures t.worker.Some? ==> Current(next, InHand(t.worker.value.phase), o)
    ensures t.sent.Some? ==> Current(next, t.sent.value.deliveries, o)
  {
  }

  lemma {:induction false} CurrentRun(s: System, actions: seq<Action>, o: OrderId)
    requires Inv(s.db) && AllCurrent(s, o) && forall a :: a in actions ==> Unassisted(a, o)
    ensures AllCurrent(Run(s, actions), o)
    decreases |actions|
  {
    if actions != [] {
      StepKeeps(s, actions[0]);
      CurrentStep(s, actions[0], o);
      CurrentRun(Step(s, actions[0]), actions[1..], o);
    }
  }

  lemma {:induction false} PossibleSend(sends: seq<Send>, o: OrderId, k: nat)
    requires k < |sends| && o in OrdersOf(sends[k].deliveries) && !sends[k].answer.Rejected?
    ensures PossibleSends(sends, o) > 0
  {
    if k < |sends| - 1 { PossibleSend(sends[..|sends| - 1], o, k); }
  }

  lemma {:induction false} ListedOrder(ds: seq<Delivery>, k: nat)
    requires k < |ds|
    ensures ds[k].order in OrdersOf(ds)
  {
    if k > 0 { ListedOrder(ds[1..], k - 1); }
  }

  /** Main result: once a message that carried an item's secret may have gone out,
      that item is held for the order, sold to it or withdrawn, never on sale. */
  lemma SentItemIsNeverResold(actions: seq<Action>, k: nat, d: Delivery)
    requires forall a :: a in actions ==> Unassisted(a, d.order)
    requires var s := Run(INITIAL, actions);
      && k < |s.sends| && !s.sends[k].answer.Rejected? && d in s.sends[k].deliveries
      && d.order in s.db.orders && s.db.orders[d.order].group.None?
    ensures var db := Run(INITIAL, actions).db;
      && d.item in db.items
      && (db.items[d.item].HeldFor(d.order) || SoldTo(db, d.item, d.order) || db.items[d.item].status.Disabled?)
  {
    var s := Run(INITIAL, actions);
    GuardedRun(INITIAL, actions, d.order);
    CurrentRun(INITIAL, actions, d.order);
    var i :| 0 <= i < |s.sends[k].deliveries| && s.sends[k].deliveries[i] == d;
    ListedOrder(s.sends[k].deliveries, i);
    PossibleSend(s.sends, d.order, k);
    assert Current(s.db, s.sends[k].deliveries, d.order);
    assert OrderOk(s.db, d.order);
  }
}
