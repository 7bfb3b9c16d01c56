/**
 The shop's collections as the services update them in place: the delivery
 worker with its loops and its transaction, the recovery service and the
 reservation sweeper.  Each method is proved to perform the database operations
 of `ShopDatabase`, and a `Process` call, with anything else at each `await`, to
 be one of the runs of `DeliveryProtocol`.
 */
module DeliveryStore {
  import opened Wrappers
  import opened ShopDatabase
  import opened ShopInvariant
  import opened DeliveryProtocol

  datatype ProcessResult =
    | AlreadyDelivered | AlreadyProcessing | OwnedByRoot | GroupAlreadyClaimed
    | DeliveredAll(orders: nat) | RetryLater | Unrecoverable

  // ---- Runs piece by piece -------------------------------------------------

  lemma {:induction false} RunConcat(s: System, first: seq<Action>, rest: seq<Action>)
    ensures Run(s, first + rest) == Run(Run(s, first), rest)
    decreases |first|
  {
    if first == [] { assert first + rest == rest; }
    else {
      assert (first + rest)[1..] == first[1..] + rest;
      RunConcat(Step(s, first[0]), first[1..], rest);
    }
  }

  lemma RunThen(s: System, actions: seq<Action>, a: Action)
    ensures Run(s, actions + [a]) == Step(Run(s, actions), a)
  {
    RunConcat(s, actions, [a]);
    var next := Run(s, actions);
    assert Run(next, [a]) == Run(Step(next, a), []);
  }

  predicate IsOther(a: Action, w: nat) { a.Work? ==> a.w != w }

  predicate Others(actions: seq<Action>, w: nat) { forall a :: a in actions ==> IsOther(a, w) }

  /** What one call meets outside the database: whether the user and product
      exist, whether the payloads decrypt, and what Telegram answers. */
  datatype Replies = Replies(complete: bool, decrypted: bool, answer: Answer)

  /** A move of the worker `w` on `o` that those replies allow. */
  predicate OwnMove(a: Action, w: nat, o: OrderId, r: Replies) {
    && a.Work? && a.w == w
    && match a.move
       case Start(p) => p == o
       case ReadGroup(_, complete) => complete == r.complete
       case ReadStock(_, decrypted) => decrypted ==> r.decrypted
       case SendMessage(answer) => answer == r.answer
       case m => !m.Crash? && !m.GiveUp?
  }

  /** Moves of `w` and, in between, what `others` do. */
  ghost predicate Among(trace: seq<Action>, w: nat, o: OrderId, r: Replies, others: nat -> seq<Action>) {
    forall a :: a in trace ==> OwnMove(a, w, o, r) || exists k: nat :: a in others(k)
  }

  lemma ThenMove(s: System, trace: seq<Action>, m: Move, w: nat, o: OrderId, r: Replies, others: nat -> seq<Action>)
    requires Among(trace, w, o, r, others) && OwnMove(Work(w, m), w, o, r)
    ensures Run(s, trace + [Work(w, m)]) == Step(Run(s, trace), Work(w, m))
    ensures Among(trace + [Work(w, m)], w, o, r, others)
  {
    RunThen(s, trace, Work(w, m));
  }

  lemma ThenOthers(s: System, trace: seq<Action>, k: nat, w: nat, o: OrderId, r: Replies, others: nat -> seq<Action>)
    requires Among(trace, w, o, r, others)
    ensures Run(s, trace + others(k)) == Run(Run(s, trace), others(k))
    ensures Among(trace + others(k), w, o, r, others)
  {
    RunConcat(s, trace, others(k));
  }

  lemma ThenMore(s: System, trace: seq<Action>, more: seq<Action>, w: nat, o: OrderId, r: Replies,
                 others: nat -> seq<Action>)
    requires Among(trace, w, o, r, others) && Among(more, w, o, r, others)
    ensures Run(s, trace + more) == Run(Run(s, trace), more)
    ensures Among(trace + more, w, o, r, others)
  {
    RunConcat(s, trace, more);
  }

  /** What no operation changes about an order. */
  predicate SameBuyer(a: Order, b: Order) { a.user == b.user && a.product == b.product && a.group == b.group }

  ghost predicate SameBuyers(db: Db, after: Db) {
    forall o :: o in db.orders ==> o in after.orders && SameBuyer(db.orders[o], after.orders[o])
  }

  lemma MoveSameBuyers(db: Db, worker: Option<Worker>, m: Move)
    ensures SameBuyers(db, Moved(db, worker, m).db)
  {
  }

  lemma EventSameBuyers(db: Db, e: Event)
    requires Happened(db, e).Some?
    ensures SameBuyers(db, Happened(db, e).value)
  {
  }

  lemma OtherStep(s: System, a: Action, w: nat)
    requires IsOther(a, w)
    ensures WorkerAt(Step(s, a), w) == WorkerAt(s, w) && SameBuyers(s.db, Step(s, a).db)
  {
    match a
    case Work(v, m) => MoveSameBuyers(s.db, WorkerAt(s, v), m);
    case Outside(e) => if Happened(s.db, e).Some? { EventSameBuyers(s.db, e); }
  }

  /** Others leave a worker where it is, and every order to its buyer. */
  lemma {:induction false} OthersRun(s: System, actions: seq<Action>, w: nat)
    requires Others(actions, w)
    ensures WorkerAt(Run(s, actions), w) == WorkerAt(s, w) && SameBuyers(s.db, Run(s, actions).db)
    decreases |actions|
  {
    if actions != [] {
      OtherStep(s, actions[0], w);
      OthersRun(Step(s, actions[0]), actions[1..], w);
    }
  }

  lemma MoveAllAppend(db: Db, ids: seq<OrderId>, o: OrderId, from: OrderStatus, s: OrderStatus, d: DeliveryStatus)
    requires s != from
    ensures var moved := MoveAll(db, ids, from, s, d).orders;
      MoveAll(db, ids + [o], from, s, d).orders ==
        if o in moved && moved[o].status == from then moved[o := moved[o].Moved(s, d)] else moved
  {
  }

  lemma Earliest(db: Db, ids: set<OrderId>) returns (g: OrderId)
    requires ids != {} && ids <= db.orders.Keys
    ensures g in ids && forall h :: h in ids && h != g ==> Before(db, g, h)
  {
    var a :| a in ids;
    g := a;
    if ids == {a} { return; }
    var b := Earliest(db, ids - {a});
    if !Before(db, a, b) { g := b; }
    forall h | h in ids && h != g ensures Before(db, g, h) {
      if h != a && h != b { assert h in ids - {a} && Before(db, b, h); }
    }
  }

  /** A row of the sweep with the databases its rolled-back attempts saw: the
      driver runs the transaction's callback again after a transient error. */
  datatype SweptRow = SweptRow(row: ExpiredRow, retried: seq<Db>)

  /** `thrown`: the sweep ended at a row whose buyer cannot be paid back. */
  datatype Swept = Swept(db: Db, released: nat, thrown: bool)

  predicate Reached(db: Db, row: ExpiredRow, now: nat, active: set<UserId>) { ReleaseRow(db, row, now, active).Some? }

  /** The order could be released, but its buyer is gone or its key was used. */
  predicate Throws(db: Db, row: ExpiredRow, now: nat, active: set<UserId>) {
    row.order.Some? && !Reached(db, row, now, active) &&
    var o := row.order.value;
    && o in db.orders && db.orders[o].status.PendingDelivery? && db.orders[o].delivery.Pending?
    && row.item in db.items && db.items[row.item].status.Reserved? && db.items[row.item].reservedOrder == row.order
    && db.items[row.item].ExpiredBy(now)
  }

  /** Rolled-back attempts that had come to the increment of the counter. */
  function CountReached(retried: seq<Db>, row: ExpiredRow, now: nat, active: set<UserId>): nat {
    if retried == [] then 0
    else
      CountReached(retried[..|retried| - 1], row, now, active) +
      if Reached(retried[|retried| - 1], row, now, active) then 1 else 0
  }

  function SweptOne(before: Swept, r: SweptRow, now: nat, active: set<UserId>): Swept {
    var counted := before.released + CountReached(r.retried, r.row, now, active);
    match ReleaseRow(before.db, r.row, now, active)
    case Some(after) => Swept(after, counted + 1, false)
    case None => Swept(before.db, counted, Throws(before.db, r.row, now, active))
  }

  /** `releaseExpired` over the rows it examined, in order. */
  function SweptAll(db: Db, rows: seq<SweptRow>, now: nat, active: set<UserId>): Swept {
    if rows == [] then Swept(db, 0, false)
    else
      var before := SweptAll(db, rows[..|rows| - 1], now, active);
      if before.thrown then before else SweptOne(before, rows[|rows| - 1], now, active)
  }

  /** The increments of rolled-back attempts, over the rows the sweep came to. */
  function RolledBack(db: Db, rows: seq<SweptRow>, now: nat, active: set<UserId>): nat {
    if rows == [] then 0
    else
      var before := rows[..|rows| - 1];
      var r := rows[|rows| - 1];
      RolledBack(db, before, now, active) +
      if SweptAll(db, before, now, active).thrown then 0 else CountReached(r.retried, r.row, now, active)
  }

  ghost function FreedBetween(db: Db, after: Db): set<ItemId> {
    set it | it in db.items && it in after.items && !db.items[it].status.Available? && after.items[it].status.Available?
  }

  ghost predicate StillFree(db: Db, after: Db) {
    after.items.Keys == db.items.Keys
    && forall it :: it in db.items && db.items[it].status.Available? ==> after.items[it].status.Available?
  }

  lemma ReleaseFreesOne(db: Db, mid: Db, row: ExpiredRow, now: nat, active: set<UserId>)
    requires StillFree(db, mid) && ReleaseRow(mid, row, now, active).Some?
    ensures var after := ReleaseRow(mid, row, now, active).value;
      && StillFree(db, after)
      && row.item !in FreedBetween(db, mid)
      && FreedBetween(db, after) == FreedBetween(db, mid) + {row.item}
  {
  }

  lemma {:induction false} SweptFrees(db: Db, rows: seq<SweptRow>, now: nat, active: set<UserId>)
    ensures var r := SweptAll(db, rows, now, active);
      StillFree(db, r.db) && r.released == |FreedBetween(db, r.db)| + RolledBack(db, rows, now, active)
  {
    if rows == [] {
      assert FreedBetween(db, db) == {};
    } else {
      SweptFrees(db, rows[..|rows| - 1], now, active);
      var mid := SweptAll(db, rows[..|rows| - 1], now, active);
      var row := rows[|rows| - 1].row;
      if !mid.thrown && Reached(mid.db, row, now, active) { ReleaseFreesOne(db, mid.db, row, now, active); }
    }
  }

  /** Main result: a sweep keeps the shop's invariant, whatever stale rows it works
      from, and reports the number of items it put back on sale if and only if no
      attempt was rolled back after it had counted. */
  lemma {:induction false} SweptKeeps(db: Db, rows: seq<SweptRow>, now: nat, active: set<UserId>)
    requires Inv(db)
    ensures var r := SweptAll(db, rows, now, active);
      && Good(db, r.db)
      && r.released == |FreedBetween(db, r.db)| + RolledBack(db, rows, now, active)
      && (r.released == |FreedBetween(db, r.db)| <==> RolledBack(db, rows, now, active) == 0)
  {
    SweptFrees(db, rows, now, active);
    if rows != [] {
      SweptKeeps(db, rows[..|rows| - 1], now, active);
      var mid := SweptAll(db, rows[..|rows| - 1], now, active);
      var row := rows[|rows| - 1].row;
      if !mid.thrown && Reached(mid.db, row, now, active) {
        ReleaseRowKeeps(mid.db, row, now, active);
        GoodThen(db, mid.db, ReleaseRow(mid.db, row, now, active).value);
      }
    }
  }

  /** One expired hold, released in the second attempt of its transaction: the
      sweep reports two items, and put one back on sale. */
  lemma RetriedRowCountsTwice(it: ItemId, pay: PaymentId, item: Item, now: nat)
    requires item.status.Reserved? && item.reservedPayment == Some(pay) && item.ExpiredBy(now)
    ensures var db := PutItem(EMPTY_DB, it, item);
      var r := SweptAll(db, [SweptRow(ExpiredRow(it, None, Some(pay)), [db])], now, {});
      r.released == 2 && FreedBetween(db, r.db) == {it}
  {
    var db, row := PutItem(EMPTY_DB, it, item), ExpiredRow(it, None, Some(pay));
    var rows := [SweptRow(row, [db])];
    assert |rows| == 1 && rows[..0] == [] && [db][..0] == [];
    var none: seq<SweptRow> := [];
    assert SweptAll(db, none, now, {}) == Swept(db, 0, false);
    assert SweptAll(db, rows, now, {}) == SweptOne(SweptAll(db, rows[..0], now, {}), rows[0], now, {});
    var noDbs: seq<Db> := [];
    assert CountReached(noDbs, row, now, {}) == 0 && CountReached([db], row, now, {}) == 1;
    var after := SweptAll(db, rows, now, {}).db;
    assert db.items.Keys == {it} && after.items.Keys == {it};
  }

  predicate Unheld(items: map<ItemId, Item>, o: OrderId) { forall it :: it in items ==> !items[it].HeldFor(o) }

  class ShopStore {
    var orders: map<OrderId, Order>
    var items: map<ItemId, Item>
    var ledger: set<CreditKey>
    var payouts: seq<Payout>
    var activeUsers: set<UserId>
    var workers: map<nat, Worker>
    var sends: seq<Send>

    function Contents(): Db
      reads this
    {
      Db(orders, items, ledger, payouts)
    }

    function Model(): System
      reads this
    {
      System(Contents(), workers, sends)
    }

    constructor ()
      ensures Model() == INITIAL && activeUsers == {}
    {
      orders, items, ledger, payouts, activeUsers, workers, sends := map[], map[], {}, [], {}, map[], [];
    }

    /** An `await`: other workers, admins, buyers and the sweeper go on. */
    method Await(w: nat, others: seq<Action>)
      requires Others(others, w)
      modifies this`orders, this`items, this`ledger, this`payouts, this`workers, this`sends
      ensures Model() == Run(old(Model()), others)
      ensures WorkerAt(Model(), w) == old(WorkerAt(Model(), w)) && SameBuyers(old(Contents()), Contents())
    {
      OthersRun(Model(), others, w);
      var s := Run(Model(), others);
      orders, items, ledger, payouts := s.db.orders, s.db.items, s.db.ledger, s.db.payouts;
      workers, sends := s.workers, s.sends;
    }

    /** What the worker remembers from here on. */
    method Goes(w: nat, next: Option<Worker>)
      modifies this`workers
      ensures workers == if next.Some? then old(workers)[w := next.value] else old(workers) - {w}
    {
      workers := if next.Some? then workers[w := next.value] else workers - {w};
    }

    // ---- Conditional writes ------------------------------------------------

    method MarkDeliveringOne(o: OrderId) returns (claimed: bool)
      modifies this`orders
      ensures claimed <==> MarkDelivering(old(Contents()), o).Some?
      ensures Contents() == if claimed then MarkDelivering(old(Contents()), o).value else old(Contents())
    {
      claimed := o in orders && orders[o].status.PendingDelivery? && orders[o].delivery.Pending?;
      if claimed { orders := orders[o := orders[o].Moved(Delivering, Processing)]; }
    }

    /** `updateMany` on a list of orders in one status. */
    method MoveMany(ids: seq<OrderId>, from: OrderStatus, s: OrderStatus, d: DeliveryStatus)
      requires s != from
      modifies this`orders
      ensures Contents() == MoveAll(old(Contents()), ids, from, s, d)
    {
      ghost var was := orders;
      for k := 0 to |ids|
        invariant orders == MoveAll(old(Contents()), ids[..k], from, s, d).orders
      {
        var o := ids[k];
        assert ids[..k + 1] == ids[..k] + [o];
        MoveAllAppend(old(Contents()), ids[..k], o, from, s, d);
        if o in orders && orders[o].status == from { orders := orders[o := orders[o].Moved(s, d)]; }
      }
      assert ids[..|ids|] == ids;
    }

    /** The transaction's loop; any item in another state aborts it. */
    method SellEach(ds: seq<Delivery>) returns (stock: Option<map<ItemId, Item>>)
      ensures stock == SellAll(items, ds)
    {
      var left: map<ItemId, Item> := items;
      for k := 0 to |ds|
        invariant SellAll(items, ds) == SellAll(left, ds[k..])
      {
        var Delivery(o, it) := ds[k];
        assert ds[k..][0] == ds[k] && ds[k..][1..] == ds[k + 1..];
        if it in left && left[it].HeldFor(o) {
          left := left[it := left[it].(status := Sold, soldOrder := Some(o), expiresAt := None)];
        } else if !(it in left && left[it].status.Sold? && left[it].soldOrder == Some(o)) {
          return None;
        }
      }
      stock := Some(left);
    }

    /** The confirmation transaction: sell every item, then mark every order
        delivered; nothing is written when it aborts. */
    method Confirm(ds: seq<Delivery>) returns (committed: bool)
      modifies this`orders, this`items
      ensures committed <==> ConfirmDelivery(old(Contents()), ds).Some?
      ensures Contents() == if committed then ConfirmDelivery(old(Contents()), ds).value else old(Contents())
    {
      var stock := SellEach(ds);
      if stock.None? { return false; }
      var ids, done := OrdersOf(ds), orders;
      for k := 0 to |ids|
        invariant done.Keys == orders.Keys
        invariant forall o :: o in orders ==>
                  done[o] == if o in ids[..k] then orders[o].Moved(Delivered, Done) else orders[o]
      {
        assert ids[..k + 1] == ids[..k] + [ids[k]];
        if ids[k] in done { done := done[ids[k] := done[ids[k]].Moved(Delivered, Done)]; }
      }
      assert ids[..|ids|] == ids;
      orders, items := done, stock.value;
      committed := true;
    }

    // ---- process -----------------------------------------------------------

    /** `find(open group).sort({ createdAt: 1, _id: 1 })` */
    method ListGroup(like: Order) returns (ids: seq<OrderId>)
      ensures GroupListing(Contents(), like, ids)
    {
      ghost var all := set g | g in orders && InOpenGroup(Contents(), like, g);
      var rest := set g | g in orders && InOpenGroup(Contents(), like, g);
      ids := [];
      while rest != {}
        invariant rest <= all
        invariant forall g :: g in ids <==> g in all && g !in rest
        invariant forall i, j :: 0 <= i < j < |ids| ==> Before(Contents(), ids[i], ids[j])
        invariant forall i, g :: 0 <= i < |ids| && g in rest ==> Before(Contents(), ids[i], g)
      {
        ghost var _ := Earliest(Contents(), rest);
        var g :| g in rest && forall h :: h in rest && h != g ==> Before(Contents(), g, h);
        ids := ids + [g];
        rest := rest - {g};
      }
    }

    /** Pairs each order with its reserved item; fails when one has none. */
    method LoadDeliveries(ids: seq<OrderId>) returns (ds: seq<Delivery>, complete: bool)
      ensures complete ==> StockListing(Contents(), ids, ds)
      ensures !complete ==> exists k :: 0 <= k < |ids| && Unheld(items, ids[k])
    {
      ds := [];
      for k := 0 to |ids|
        invariant |ds| == k && OrdersOf(ds) == ids[..k]
        invariant forall j :: 0 <= j < k ==> ds[j].item in items && items[ds[j].item].HeldFor(ds[j].order)
      {
        var o := ids[k];
        if !exists it :: it in items && items[it].HeldFor(o) { return ds, false; }
        var it :| it in items && items[it].HeldFor(o);
        OrdersOfAppend(ds, Delivery(o, it));
        ds := ds + [Delivery(o, it)];
      }
      assert ids[..|ids|] == ids;
      complete := true;
    }

    // ---- One database operation of `process` each ----------------------------

    method Load(w: nat, o: OrderId) returns (initial: Option<Order>)
      requires w !in workers
      modifies this`workers
      ensures Model() == Step(old(Model()), Work(w, Start(o)))
      ensures initial == if o in orders then Some(orders[o]) else None
    {
      initial := if o in orders then Some(orders[o]) else None;
      if initial.None? || initial.value.status.DeliveryFailed? { Goes(w, Some(Worker(o, Failing))); }
      else if initial.value.status.Delivered? { Goes(w, None); }
      else { Goes(w, Some(Worker(o, Loaded(initial.value)))); }
    }

    method FindRoot(w: nat, o: OrderId, initial: Order) returns (owned: bool)
      requires WorkerAt(Model(), w) == Some(Worker(o, Loaded(initial)))
      modifies this`workers
      ensures Model() == Step(old(Model()), Work(w, CheckGroup))
      ensures owned == (initial.group.Some? && OwnedByOtherRoot(Contents(), initial, o))
      ensures WorkerAt(Model(), w) == if owned then None
                                      else Some(Worker(o, if initial.status.Delivering? then Failing else Checked))
    {
      owned := initial.group.Some? && OwnedByOtherRoot(Contents(), initial, o);
      if owned { Goes(w, None); }
      else { Goes(w, Some(Worker(o, if initial.status.Delivering? then Failing else Checked))); }
    }

    method ClaimOrder(w: nat, o: OrderId) returns (claimed: Option<Order>)
      requires WorkerAt(Model(), w) == Some(Worker(o, Checked))
      modifies this`orders, this`workers
      ensures Model() == Step(old(Model()), Work(w, Claim))
      ensures WorkerAt(Model(), w) == Some(Worker(o, if claimed.Some? then Claimed else Beaten))
      ensures claimed.Some? ==> o in orders && claimed.value == orders[o]
    {
      var ok := MarkDeliveringOne(o);
      claimed := if ok then Some(orders[o]) else None;
      Goes(w, Some(Worker(o, if ok then Claimed else Beaten)));
    }

    method FindAgain(w: nat, o: OrderId) returns (r: ProcessResult)
      requires WorkerAt(Model(), w) == Some(Worker(o, Beaten))
      modifies this`workers
      ensures Model() == Step(old(Model()), Work(w, LookAgain)) && Finished(w, o, r) && !r.DeliveredAll?
    {
      r := if o in orders && orders[o].status.Delivered? then AlreadyDelivered
           else if o in orders && orders[o].status.Delivering? then AlreadyProcessing else Unrecoverable;
      Goes(w, if r.Unrecoverable? then Some(Worker(o, Failing)) else None);
    }

    /** Where a call with this result leaves its worker. */
    predicate Finished(w: nat, o: OrderId, r: ProcessResult)
      reads this
    {
      WorkerAt(Model(), w) == if r.Unrecoverable? then Some(Worker(o, Failing)) else None
    }

    method FindGroup(w: nat, o: OrderId, claimed: Order, complete: bool)
      returns (ended: Option<ProcessResult>, ids: seq<OrderId>)
      requires WorkerAt(Model(), w) == Some(Worker(o, Claimed)) && o in orders && SameBuyer(claimed, orders[o])
      modifies this`workers
      ensures Model() == Step(old(Model()), Work(w, ReadGroup(ids, complete)))
      ensures ended == (if !complete then Some(Unrecoverable)
                        else if o !in ids then Some(GroupAlreadyClaimed) else None)
      ensures if ended.Some? then Finished(w, o, ended.value) else WorkerAt(Model(), w) == Some(Worker(o, Grouped(ids)))
    {
      ids := [o];
      if claimed.group.Some? {
        ids := ListGroup(claimed);
        assert GroupListing(Contents(), orders[o], ids);
      }
      ended := if !complete then Some(Unrecoverable) else if o !in ids then Some(GroupAlreadyClaimed) else None;
      Goes(w, if !complete then Some(Worker(o, Failing))
              else if o !in ids then None else Some(Worker(o, Grouped(ids))));
    }

    method TakeOrders(w: nat, o: OrderId, ids: seq<OrderId>)
      requires WorkerAt(Model(), w) == Some(Worker(o, Grouped(ids)))
      modifies this`orders, this`workers
      ensures Model() == Step(old(Model()), Work(w, TakeAll)) && WorkerAt(Model(), w) == Some(Worker(o, Taken(ids)))
      ensures orders.Keys == old(orders).Keys
    {
      MoveMany(ids, PendingDelivery, Delivering, Processing);
      Goes(w, Some(Worker(o, Taken(ids))));
    }

    method FindStock(w: nat, o: OrderId, ids: seq<OrderId>, decrypted: bool) returns (ds: seq<Delivery>, found: bool)
      requires WorkerAt(Model(), w) == Some(Worker(o, Taken(ids)))
      modifies this`workers
      ensures Model() == Step(old(Model()), Work(w, ReadStock(ds, found)))
      ensures WorkerAt(Model(), w) == Some(Worker(o, if found then Stocked(ds) else Failing))
      ensures found ==> OrdersOf(ds) == ids && decrypted
      ensures !found && decrypted ==> exists k :: 0 <= k < |ids| && Unheld(items, ids[k])
    {
      ds, found := LoadDeliveries(ids);
      found := found && decrypted;
      Goes(w, Some(Worker(o, if found then Stocked(ds) else Failing)));
    }

    method SendNotice(w: nat, o: OrderId, ds: seq<Delivery>, answer: Answer)
      requires WorkerAt(Model(), w) == Some(Worker(o, Stocked(ds)))
      modifies this`workers, this`sends
      ensures Model() == Step(old(Model()), Work(w, SendMessage(answer)))
      ensures WorkerAt(Model(), w) == Some(Worker(o, AfterAnswer(ds, answer)))
    {
      sends := sends + [Send(ds, answer)];
      Goes(w, Some(Worker(o, AfterAnswer(ds, answer))));
    }

    method ConfirmSent(w: nat, o: OrderId, ds: seq<Delivery>) returns (r: ProcessResult)
      requires WorkerAt(Model(), w) == Some(Worker(o, Sent(ds))) && o in orders && o in OrdersOf(ds)
      modifies this`orders, this`items, this`workers
      ensures Model() == Step(old(Model()), Work(w, Move.Confirm)) && Finished(w, o, r)
      ensures r == Unrecoverable || (r == DeliveredAll(|ds|) && o in orders && orders[o].status.Delivered?)
    {
      var committed := Confirm(ds);
      r := if committed then DeliveredAll(|ds|) else Unrecoverable;
      Goes(w, if committed then None else Some(Worker(o, Failing)));
    }

    method RevertSent(w: nat, o: OrderId, ds: seq<Delivery>)
      requires WorkerAt(Model(), w) == Some(Worker(o, Reverting(OrdersOf(ds))))
      modifies this`orders, this`workers
      ensures Model() == Step(old(Model()), Work(w, Revert)) && Finished(w, o, RetryLater)
    {
      MoveMany(OrdersOf(ds), Delivering, PendingDelivery, Pending);
      Goes(w, None);
    }

    // ---- process, with anything else at each `await` ---------------------------

    /** `process` up to the claim; `None` when this worker goes on to deliver. */
    method Admit(w: nat, o: OrderId, ghost r: Replies, others: nat -> seq<Action>)
      returns (ended: Option<ProcessResult>, claimed: Option<Order>, ghost trace: seq<Action>)
      requires w !in workers && forall k :: Others(others(k), w)
      modifies this`orders, this`items, this`ledger, this`payouts, this`workers, this`sends
      ensures Model() == Run(old(Model()), trace) && Among(trace, w, o, r, others)
      ensures ended.Some? ==> Finished(w, o, ended.value) && !ended.value.DeliveredAll?
      ensures ended.None? ==>
        && WorkerAt(Model(), w) == Some(Worker(o, Claimed))
        && claimed.Some? && o in orders && claimed.value == orders[o]
    {
      ghost var start := Model();
      var found := Load(w, o);
      ThenMove(start, [], Start(o), w, o, r, others);
      trace := [] + [Work(w, Start(o))];
      if found.None? { return Some(Unrecoverable), None, trace; }
      var initial := found.value;
      if initial.status.Delivered? { return Some(AlreadyDelivered), None, trace; }
      if initial.status.DeliveryFailed? { return Some(Unrecoverable), None, trace; }
      Await(w, others(0));
      ThenOthers(start, trace, 0, w, o, r, others);
      trace := trace + others(0);
      var owned := FindRoot(w, o, initial);
      ThenMove(start, trace, CheckGroup, w, o, r, others);
      trace := trace + [Work(w, CheckGroup)];
      if owned { return Some(OwnedByRoot), None, trace; }
      if initial.status.Delivering? { return Some(Unrecoverable), None, trace; }
      ghost var more;
      ended, claimed, more := TryClaim(w, o, r, others);
      ThenMore(start, trace, more, w, o, r, others);
      trace := trace + more;
    }

    method TryClaim(w: nat, o: OrderId, ghost r: Replies, others: nat -> seq<Action>)
      returns (ended: Option<ProcessResult>, claimed: Option<Order>, ghost trace: seq<Action>)
      requires WorkerAt(Model(), w) == Some(Worker(o, Checked)) && forall k :: Others(others(k), w)
      modifies this`orders, this`items, this`ledger, this`payouts, this`workers, this`sends
      ensures Model() == Run(old(Model()), trace) && Among(trace, w, o, r, others)
      ensures ended.Some? ==> Finished(w, o, ended.value) && !ended.value.DeliveredAll?
      ensures ended.None? ==>
        && WorkerAt(Model(), w) == Some(Worker(o, Claimed))
        && claimed.Some? && o in orders && claimed.value == orders[o]
    {
      ghost var start := Model();
      Await(w, others(1));
      trace := others(1);
      claimed := ClaimOrder(w, o);
      ThenMove(start, trace, Claim, w, o, r, others);
      trace := trace + [Work(w, Claim)];
      if claimed.Some? { return None, claimed, trace; }
      Await(w, others(2));
      ThenOthers(start, trace, 2, w, o, r, others);
      trace := trace + others(2);
      var result := FindAgain(w, o);
      ThenMove(start, trace, LookAgain, w, o, r, others);
      return Some(result), claimed, trace + [Work(w, LookAgain)];
    }

    /** From the claim to the loaded deliveries of the whole group. */
    method Gather(w: nat, o: OrderId, claimed: Order, r: Replies, others: nat -> seq<Action>)
      returns (ended: Option<ProcessResult>, ds: seq<Delivery>, ghost trace: seq<Action>)
      requires WorkerAt(Model(), w) == Some(Worker(o, Claimed)) && forall k :: Others(others(k), w)
      requires o in orders && claimed == orders[o]
      modifies this`orders, this`items, this`ledger, this`payouts, this`workers, this`sends
      ensures Model() == Run(old(Model()), trace) && Among(trace, w, o, r, others)
      ensures ended.Some? ==> Finished(w, o, ended.value) && !ended.value.DeliveredAll?
      ensures ended.None? ==> WorkerAt(Model(), w) == Some(Worker(o, Stocked(ds))) && o in orders && o in OrdersOf(ds)
    {
      ghost var start := Model();
      ds := [];
      Await(w, others(3));
      trace := others(3);
      var ids;
      ended, ids := FindGroup(w, o, claimed, r.complete);
      ThenMove(start, trace, ReadGroup(ids, r.complete), w, o, r, others);
      trace := trace + [Work(w, ReadGroup(ids, r.complete))];
      if ended.Some? { return ended, ds, trace; }
      Await(w, others(4));
      ThenOthers(start, trace, 4, w, o, r, others);
      trace := trace + others(4);
      TakeOrders(w, o, ids);
      ThenMove(start, trace, TakeAll, w, o, r, others);
      trace := trace + [Work(w, TakeAll)];
      ghost var more;
      ended, ds, more := ReadItems(w, o, ids, r, others);
      ThenMore(start, trace, more, w, o, r, others);
      trace := trace + more;
    }

    method ReadItems(w: nat, o: OrderId, ids: seq<OrderId>, r: Replies, others: nat -> seq<Action>)
      returns (ended: Option<ProcessResult>, ds: seq<Delivery>, ghost trace: seq<Action>)
      requires WorkerAt(Model(), w) == Some(Worker(o, Taken(ids))) && forall k :: Others(others(k), w)
      requires o in orders && o in ids
      modifies this`orders, this`items, this`ledger, this`payouts, this`workers, this`sends
      ensures Model() == Run(old(Model()), trace) && Among(trace, w, o, r, others)
      ensures ended.Some? ==> Finished(w, o, ended.value) && !ended.value.DeliveredAll?
      ensures ended.None? ==> WorkerAt(Model(), w) == Some(Worker(o, Stocked(ds))) && o in orders && o in OrdersOf(ds)
    {
      ghost var start := Model();
      Await(w, others(5));
      trace := others(5);
      var found;
      ds, found := FindStock(w, o, ids, r.decrypted);
      ThenMove(start, trace, ReadStock(ds, found), w, o, r, others);
      trace := trace + [Work(w, ReadStock(ds, found))];
      ended := if found then None else Some(Unrecoverable);
    }

    /** Sending, and what Telegram's answer makes of the orders. */
    method Deliver(w: nat, o: OrderId, ds: seq<Delivery>, r: Replies, others: nat -> seq<Action>)
      returns (result: ProcessResult, ghost trace: seq<Action>)
      requires WorkerAt(Model(), w) == Some(Worker(o, Stocked(ds))) && forall k :: Others(others(k), w)
      requires o in orders && o in OrdersOf(ds)
      modifies this`orders, this`items, this`ledger, this`payouts, this`workers, this`sends
      ensures Model() == Run(old(Model()), trace) && Among(trace, w, o, r, others)
      ensures Finished(w, o, result) && (result.DeliveredAll? ==> o in orders && orders[o].status.Delivered?)
    {
      ghost var start, more := Model(), [];
      Await(w, others(6));
      trace := others(6);
      SendNotice(w, o, ds, r.answer);
      ThenMove(start, trace, SendMessage(r.answer), w, o, r, others);
      trace := trace + [Work(w, SendMessage(r.answer))];
      Await(w, others(7));
      ThenOthers(start, trace, 7, w, o, r, others);
      trace := trace + others(7);
      result, more := Conclude(w, o, ds, r);
      ThenMore(start, trace, more, w, o, r, others);
      trace := trace + more;
    }

    method Conclude(w: nat, o: OrderId, ds: seq<Delivery>, r: Replies)
      returns (result: ProcessResult, ghost trace: seq<Action>)
      requires WorkerAt(Model(), w) == Some(Worker(o, AfterAnswer(ds, r.answer))) && o in orders && o in OrdersOf(ds)
      modifies this`orders, this`items, this`workers
      ensures Model() == Run(old(Model()), trace) && forall a :: a in trace ==> OwnMove(a, w, o, r)
      ensures Finished(w, o, result) && (result.DeliveredAll? ==> o in orders && orders[o].status.Delivered?)
    {
      ghost var start := Model();
      match r.answer {
        case Accepted =>
          result := ConfirmSent(w, o, ds);
          RunThen(start, [], Work(w, Move.Confirm));
          trace := [] + [Work(w, Move.Confirm)];
        case Rejected =>
          RevertSent(w, o, ds);
          RunThen(start, [], Work(w, Revert));
          result, trace := RetryLater, [] + [Work(w, Revert)];
        case _ => result, trace := Unrecoverable, [];
      }
    }

    /** `process`: whatever `others` do at each `await`, the call is a run of the
        protocol with this worker's moves in between. */
    method Process(w: nat, o: OrderId, r: Replies, others: nat -> seq<Action>)
      returns (result: ProcessResult, ghost trace: seq<Action>)
      requires w !in workers && forall k :: Others(others(k), w)
      modifies this`orders, this`items, this`ledger, this`payouts, this`workers, this`sends
      ensures Model() == Run(old(Model()), trace) && Among(trace, w, o, r, others)
      ensures Finished(w, o, result) && (result.DeliveredAll? ==> o in orders && orders[o].status.Delivered?)
    {
      ghost var start, more := Model(), [];
      var ended, claimed;
      ended, claimed, trace := Admit(w, o, r, others);
      if ended.Some? { return ended.value, trace; }
      var ds;
      ended, ds, more := Gather(w, o, claimed.value, r, others);
      ThenMore(start, trace, more, w, o, r, others);
      trace := trace + more;
      if ended.Some? { return ended.value, trace; }
      result, more := Deliver(w, o, ds, r, others);
      ThenMore(start, trace, more, w, o, r, others);
      trace := trace + more;
    }

    // ---- onFailed --------------------------------------------------------------

    method FailOne(w: nat, o: OrderId) returns (failed: Option<Order>)
      requires WorkerAt(Model(), w) == Some(Worker(o, Failing))
      modifies this`orders, this`workers
      ensures Model() == Step(old(Model()), Work(w, Fail))
      ensures failed.Some? <==> MarkDeliveryFailed(old(Contents()), o).Some?
      ensures WorkerAt(Model(), w) == if failed.Some? && failed.value.group.Some?
                                      then Some(Worker(o, FailingGroup(failed.value))) else None
    {
      failed := None;
      if o in orders && (orders[o].status.PendingDelivery? || orders[o].status.Delivering?) {
        orders := orders[o := orders[o].Moved(DeliveryFailed, Failed)];
        failed := Some(orders[o]);
      }
      Goes(w, if failed.Some? && failed.value.group.Some? then Some(Worker(o, FailingGroup(failed.value))) else None);
    }

    method FailOpenGroup(w: nat, o: OrderId, like: Order)
      requires WorkerAt(Model(), w) == Some(Worker(o, FailingGroup(like)))
      modifies this`orders, this`workers
      ensures Model() == Step(old(Model()), Work(w, FailRest)) && WorkerAt(Model(), w) == None
    {
      var before := Contents();
      orders := map q | q in orders ::
        if InOpenGroup(before, like, q) then orders[q].Moved(DeliveryFailed, Failed) else orders[q];
      Goes(w, None);
    }

    /** `onFailed`: the failed order, then the open rest of its group. */
    method OnFailed(w: nat, o: OrderId, others: seq<Action>) returns (failed: bool, ghost trace: seq<Action>)
      requires WorkerAt(Model(), w) == Some(Worker(o, Failing)) && Others(others, w)
      modifies this`orders, this`items, this`ledger, this`payouts, this`workers, this`sends
      ensures failed <==> MarkDeliveryFailed(old(Contents()), o).Some?
      ensures trace == if failed && old(orders)[o].group.Some?
                       then [Work(w, Fail)] + others + [Work(w, FailRest)] else [Work(w, Fail)]
      ensures Model() == Run(old(Model()), trace) && WorkerAt(Model(), w) == None
    {
      ghost var start := Model();
      var order := FailOne(w, o);
      RunThen(start, [], Work(w, Fail));
      trace := [] + [Work(w, Fail)];
      failed := order.Some?;
      if !failed || order.value.group.None? { return failed, trace; }
      Await(w, others);
      RunConcat(start, trace, others);
      trace := trace + others;
      FailOpenGroup(w, o, order.value);
      RunThen(start, trace, Work(w, FailRest));
      trace := trace + [Work(w, FailRest)];
    }

    // ---- Recovery and expiry -----------------------------------------------

    method ResendOne(o: OrderId) returns (ok: bool)
      modifies this`orders
      ensures ok <==> Resend(old(Contents()), o).Some?
      ensures Contents() == if ok then Resend(old(Contents()), o).value else old(Contents())
    {
      ok := o in orders && orders[o].status.DeliveryFailed?;
      if ok { orders := orders[o := orders[o].Moved(PendingDelivery, Pending)]; }
    }

    method ReplaceOne(o: OrderId, replacement: ItemId, expiresAt: nat) returns (ok: bool)
      modifies this`orders, this`items
      ensures ok <==> Replace(old(Contents()), o, replacement, expiresAt).Some?
      ensures Contents() == if ok then Replace(old(Contents()), o, replacement, expiresAt).value else old(Contents())
    {
      if !(o in orders && orders[o].status.DeliveryFailed?) { return false; }
      var order := orders[o];
      var stock := items;
      if order.item in stock && stock[order.item].status.Reserved? && stock[order.item].reservedOrder == Some(o) {
        stock := stock[order.item := stock[order.item].(status := Disabled)];
      }
      if !(replacement in stock && stock[replacement].Free(order.product)) { return false; }
      var held := stock[replacement].(status := Reserved, reservedOrder := Some(o), expiresAt := Some(expiresAt));
      items := stock[replacement := held];
      orders := orders[o := order.Moved(PendingDelivery, Pending).(item := replacement)];
      ok := true;
    }

    method RefundOne(o: OrderId) returns (ok: bool)
      modifies this`orders, this`items, this`ledger, this`payouts
      ensures var active := o in old(orders) && old(orders)[o].user in activeUsers;
        && (ok <==> Refund(old(Contents()), o, active).Some?)
        && Contents() == if ok then Refund(old(Contents()), o, active).value else old(Contents())
    {
      if !(o in orders && orders[o].status.DeliveryFailed?) { return o in orders && orders[o].status.Refunded?; }
      var order := orders[o];
      if order.total > 0 && DeliveryRefund(o) !in ledger {
        if order.user !in activeUsers { return false; }
        ledger, payouts := ledger + {DeliveryRefund(o)}, payouts + [Payout(o, order.user, order.total)];
      }
      if order.item in items && items[order.item].status.Reserved? {
        items := items[order.item := items[order.item].(status := Disabled)];
      }
      orders := orders[o := order.(status := Refunded)];
      ok := true;
    }

    /** One transaction of the sweep, in the attempt that commits or throws. */
    method ReleaseOne(row: ExpiredRow, now: nat) returns (ok: bool, thrown: bool)
      modifies this`orders, this`items, this`ledger, this`payouts
      ensures ok <==> ReleaseRow(old(Contents()), row, now, activeUsers).Some?
      ensures Contents() == if ok then ReleaseRow(old(Contents()), row, now, activeUsers).value else old(Contents())
      ensures thrown == (!ok && Throws(old(Contents()), row, now, activeUsers))
    {
      var it := row.item;
      if row.payment.Some? && row.order.None? {
        ok := it in items && items[it].ExpiredBy(now) && items[it].status.Reserved? &&
          items[it].reservedPayment == row.payment;
        if ok { items := items[it := items[it].(status := Available, reservedPayment := None, expiresAt := None)]; }
        return ok, false;
      }
      if row.order.None? { return false, false; }
      var o := row.order.value;
      if !(o in orders && orders[o].status.PendingDelivery? && orders[o].delivery.Pending?) { return false, false; }
      if !(it in items && items[it].status.Reserved? && items[it].reservedOrder == Some(o)
           && items[it].ExpiredBy(now)) {
        return false, false;
      }
      var order := orders[o];
      if order.total > 0 {
        if order.user !in activeUsers || ReservationExpired(o) in ledger { return false, true; }
        ledger, payouts := ledger + {ReservationExpired(o)}, payouts + [Payout(o, order.user, order.total)];
      }
      items := items[it := items[it].(status := Available, reservedOrder := None, expiresAt := None)];
      orders := orders[o := order.Moved(Cancelled, Failed)];
      return true, false;
    }

    /** The counter is a variable outside the callback: a rolled-back attempt
        leaves its increment behind. */
    method AfterRetries(counted: nat, r: SweptRow, now: nat) returns (released: nat)
      ensures released == counted + CountReached(r.retried, r.row, now, activeUsers)
    {
      released := counted;
      for j := 0 to |r.retried|
        invariant released == counted + CountReached(r.retried[..j], r.row, now, activeUsers)
      {
        assert r.retried[..j + 1][..j] == r.retried[..j];
        if Reached(r.retried[j], r.row, now, activeUsers) { released := released + 1; }
      }
      assert r.retried[..|r.retried|] == r.retried;
    }

    /** `releaseExpired` over the rows it examines. */
    method Sweep(rows: seq<SweptRow>, now: nat) returns (released: nat, thrown: bool)
      modifies this`orders, this`items, this`ledger, this`payouts
      ensures Swept(Contents(), released, thrown) == SweptAll(old(Contents()), rows, now, activeUsers)
    {
      released, thrown := 0, false;
      for k := 0 to |rows|
        invariant Swept(Contents(), released, thrown) == SweptAll(old(Contents()), rows[..k], now, activeUsers)
        invariant !thrown
      {
        assert rows[..k + 1][..k] == rows[..k];
        var r := rows[k];
        released := AfterRetries(released, r, now);
        var ok;
        ok, thrown := ReleaseOne(r.row, now);
        if ok { released := released + 1; }
        if thrown {
          ThrownStays(old(Contents()), rows, k + 1, now, activeUsers);
          return;
        }
      }
      assert rows[..|rows|] == rows;
    }
  }

  lemma {:induction false} ThrownStays(db: Db, rows: seq<SweptRow>, k: nat, now: nat, active: set<UserId>)
    requires k <= |rows| && SweptAll(db, rows[..k], now, active).thrown
    ensures SweptAll(db, rows, now, active) == SweptAll(db, rows[..k], now, active)
    decreases |rows|
  {
    if k == |rows| { assert rows[..k] == rows; }
    else {
      var n := |rows| - 1;
      assert rows[..n][..k] == rows[..k];
      ThrownStays(db, rows[..n], k, now, active);
    }
  }

  lemma {:induction false} OrdersOfAppend(ds: seq<Delivery>, d: Delivery)
    ensures OrdersOf(ds + [d]) == OrdersOf(ds) + [d.order]
  {
  }
}
