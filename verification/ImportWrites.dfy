/**
 An import's writes among everybody else's: each insert and each overwrite is one
 conditional write of the collection, a later query reads back which items carry
 the batch, and sales, removals, other imports and renames of a product's fields
 happen at any moment in between.
 */
module ImportWrites {
  import opened Wrappers
  import opened ImportRows
  import ShopDatabase

  datatype Stock = Stock(product: nat, hash: Hash, status: Status, batch: Option<nat>, deleted: bool)

  type Inventory = map<nat, Stock>

  /** What other processes write.  A rename of a product's fields gives every
      undeleted item of the product, whatever its status, the hash of its renamed
      content. */
  datatype Write =
    | InsertRow(id: nat, product: nat, hash: Hash, stamp: nat)
    | OverwriteRow(id: nat, product: nat, hash: Hash, stamp: nat)
    | SetStatus(id: nat, status: Status)
    | Remove(id: nat)
    | Rename(product: nat, rehash: map<Hash, Hash>)

  predicate Matches(inv: Inventory, id: nat, product: nat, hash: Hash) {
    id in inv && !inv[id].deleted && inv[id].product == product && inv[id].hash == hash
  }

  predicate Held(inv: Inventory, product: nat, hash: Hash) { exists id :: id in inv && Matches(inv, id, product, hash) }

  /** The collection's unique index. */
  ghost predicate Unique(inv: Inventory) {
    forall a, b, product, hash :: Matches(inv, a, product, hash) && Matches(inv, b, product, hash) ==> a == b
  }

  function Rehashed(rehash: map<Hash, Hash>, hash: Hash): Hash { if hash in rehash then rehash[hash] else hash }

  predicate Renames(stock: Stock, product: nat) { !stock.deleted && stock.product == product }

  /** The rename's transaction gives up when two items would get one hash. */
  predicate RenameFits(inv: Inventory, product: nat, rehash: map<Hash, Hash>) {
    forall a, b :: a in inv && b in inv && Renames(inv[a], product) && Renames(inv[b], product) && a != b ==>
      Rehashed(rehash, inv[a].hash) != Rehashed(rehash, inv[b].hash)
  }

  function Renamed(inv: Inventory, product: nat, rehash: map<Hash, Hash>): Inventory {
    map id | id in inv ::
      if Renames(inv[id], product) then inv[id].(hash := Rehashed(rehash, inv[id].hash)) else inv[id]
  }

  /** An item as an import creates it. */
  function Imported(product: nat, hash: Hash, stamp: nat): Stock {
    Stock(product, hash, ShopDatabase.Available, Some(stamp), false)
  }

  function Written(inv: Inventory, w: Write): Inventory {
    match w
    case InsertRow(id, product, hash, stamp) =>
      if id in inv || Held(inv, product, hash) then inv else inv[id := Imported(product, hash, stamp)]
    case OverwriteRow(id, product, hash, stamp) =>
      if Matches(inv, id, product, hash) && inv[id].status.Available?
      then inv[id := inv[id].(batch := Some(stamp))] else inv
    case SetStatus(id, status) => if id in inv then inv[id := inv[id].(status := status)] else inv
    case Remove(id) => if id in inv && inv[id].status.Available? then inv[id := inv[id].(deleted := true)] else inv
    case Rename(product, rehash) => if RenameFits(inv, product, rehash) then Renamed(inv, product, rehash) else inv
  }

  // ---- The import among them -----------------------------------------------

  /** The rows one commit writes under its new batch. */
  datatype Import = Import(product: nat, batch: nat, inserts: seq<Prepared>, overwrites: seq<Prepared>)

  /** A `broken` write fails for a reason of its own and changes nothing. */
  datatype Action =
    | Insert(i: nat, id: nat, broken: bool)
    | Overwrite(i: nat, broken: bool)
    | ReadBack(offset: nat)
    | Other(write: Write)

  /** The collection, what the read-back queries found, and history: the rows
      whose turn it was, the item each inserted row created, the item each overwrite
      met, the overwrites that took effect, and those whose item another import
      stamped later. */
  datatype World = World(inv: Inventory, read: map<nat, set<nat>>, tried: set<nat>, applied: map<nat, nat>,
                         met: map<nat, Stock>, broken: set<nat>, hit: set<nat>, lost: set<nat>)

  function Start(inv: Inventory): World { World(inv, map[], {}, map[], map[], {}, {}, {}) }

  /** The items that carry the batch. */
  function Stamped(inv: Inventory, batch: nat): set<nat> { set id | id in inv && inv[id].batch == Some(batch) }

  /** The batch is new: no other process writes its stamp. */
  predicate Foreign(w: Write, batch: nat) {
    match w
    case InsertRow(_, _, _, stamp) => stamp != batch
    case OverwriteRow(_, _, _, stamp) => stamp != batch
    case _ => true
  }

  function AfterInsert(c: Import, w: World, i: nat, id: nat, broken: bool): World
    requires i < |c.inserts|
  {
    var row := c.inserts[i];
    if broken || id in w.inv || Held(w.inv, c.product, row.hash) then w.(tried := w.tried + {i})
    else w.(tried := w.tried + {i}, applied := w.applied[i := id],
            inv := w.inv[id := Imported(c.product, row.hash, c.batch)])
  }

  /** The overwrite's filter at its turn. */
  predicate Meets(c: Import, inv: Inventory, row: Prepared) {
    Matches(inv, IdOf(row), c.product, row.hash) && inv[IdOf(row)].status.Available?
  }

  function AfterOverwrite(c: Import, w: World, i: nat, broken: bool): World
    requires i < |c.overwrites| && IdOf(c.overwrites[i]) in w.inv
  {
    var id := IdOf(c.overwrites[i]);
    var turn := w.(met := w.met[i := w.inv[id]], broken := if broken then w.broken + {i} else w.broken);
    if broken || !Meets(c, w.inv, c.overwrites[i]) then turn
    else turn.(hit := w.hit + {i}, inv := w.inv[id := w.inv[id].(batch := Some(c.batch))])
  }

  /** The rows whose stamp another import's write replaces. */
  function Restamped(c: Import, w: World, write: Write): set<nat> {
    if write.OverwriteRow? && Matches(w.inv, write.id, write.product, write.hash) && w.inv[write.id].status.Available?
    then set i | i in w.hit && i < |c.overwrites| && IdOf(c.overwrites[i]) == write.id
    else {}
  }

  function Step(c: Import, w: World, a: Action): World {
    match a
    case Insert(i, id, broken) => if i < |c.inserts| && i !in w.tried then AfterInsert(c, w, i, id, broken) else w
    case Overwrite(i, broken) =>
      if i < |c.overwrites| && i !in w.met && IdOf(c.overwrites[i]) in w.inv then AfterOverwrite(c, w, i, broken) else w
    case ReadBack(offset) => w.(read := w.read[offset := Stamped(w.inv, c.batch)])
    case Other(write) =>
      if Foreign(write, c.batch) then w.(inv := Written(w.inv, write), lost := w.lost + Restamped(c, w, write)) else w
  }

  function Run(c: Import, w: World, actions: seq<Action>): World
    decreases |actions|
  {
    if actions == [] then w else Run(c, Step(c, w, actions[0]), actions[1..])
  }

  // ---- One content, one item -----------------------------------------------

  lemma RenameKeepsUnique(inv: Inventory, product: nat, rehash: map<Hash, Hash>)
    requires Unique(inv) && RenameFits(inv, product, rehash)
    ensures Unique(Renamed(inv, product, rehash))
  {
    var after := Renamed(inv, product, rehash);
    forall a, b, p, hash | Matches(after, a, p, hash) && Matches(after, b, p, hash) ensures a == b {
      assert p != product ==> Matches(inv, a, p, hash) && Matches(inv, b, p, hash);
    }
  }

  lemma NewKeepsUnique(inv: Inventory, id: nat, stock: Stock)
    requires Unique(inv) && id !in inv && !Held(inv, stock.product, stock.hash)
    ensures Unique(inv[id := stock])
  {
    var after := inv[id := stock];
    forall a, b, p, hash | Matches(after, a, p, hash) && Matches(after, b, p, hash) ensures a == b {
      assert a in inv ==> Matches(inv, a, p, hash);
      assert b in inv ==> Matches(inv, b, p, hash);
    }
  }

  /** A change of status or batch, or a deletion. */
  lemma EditKeepsUnique(inv: Inventory, id: nat, stock: Stock)
    requires Unique(inv) && id in inv && stock.product == inv[id].product && stock.hash == inv[id].hash
    requires inv[id].deleted ==> stock.deleted
    ensures Unique(inv[id := stock])
  {
    var after := inv[id := stock];
    forall a, b, p, hash | Matches(after, a, p, hash) && Matches(after, b, p, hash) ensures a == b {
      assert Matches(inv, a, p, hash) && Matches(inv, b, p, hash);
    }
  }

  lemma WriteKeepsUnique(inv: Inventory, w: Write)
    requires Unique(inv)
    ensures Unique(Written(inv, w))
  {
    match w
    case InsertRow(id, product, hash, stamp) =>
      if id !in inv && !Held(inv, product, hash) { NewKeepsUnique(inv, id, Imported(product, hash, stamp)); }
    case OverwriteRow(id, _, _, stamp) => if id in inv { EditKeepsUnique(inv, id, inv[id].(batch := Some(stamp))); }
    case SetStatus(id, status) => if id in inv { EditKeepsUnique(inv, id, inv[id].(status := status)); }
    case Remove(id) => if id in inv { EditKeepsUnique(inv, id, inv[id].(deleted := true)); }
    case Rename(product, rehash) => if RenameFits(inv, product, rehash) { RenameKeepsUnique(inv, product, rehash); }
  }

  lemma StepKeepsUnique(c: Import, w: World, a: Action)
    requires Unique(w.inv)
    ensures Unique(Step(c, w, a).inv)
  {
    match a
    case Insert(i, id, broken) =>
      if i < |c.inserts| && id !in w.inv && !Held(w.inv, c.product, c.inserts[i].hash) {
        NewKeepsUnique(w.inv, id, Imported(c.product, c.inserts[i].hash, c.batch));
      }
    case Overwrite(i, broken) =>
      if i < |c.overwrites| && IdOf(c.overwrites[i]) in w.inv {
        var id := IdOf(c.overwrites[i]);
        EditKeepsUnique(w.inv, id, w.inv[id].(batch := Some(c.batch)));
      }
    case ReadBack(_) =>
    case Other(write) => WriteKeepsUnique(w.inv, write);
  }

  /** Main result: an import among any sales, removals, renames and other imports
      never leaves a product with one content twice. */
  lemma {:induction false} RunKeepsUnique(c: Import, w: World, actions: seq<Action>)
    requires Unique(w.inv)
    ensures Unique(Run(c, w, actions).inv)
    decreases |actions|
  {
    if actions != [] {
      StepKeepsUnique(c, w, actions[0]);
      RunKeepsUnique(c, Step(c, w, actions[0]), actions[1..]);
    }
  }

  // ---- What history says of the collection ---------------------------------

  /** Where the commit begins: the items to overwrite exist, one row each, and
      nothing carries the new batch. */
  ghost predicate Begins(c: Import, inv: Inventory) {
    && DistinctIds(c.overwrites)
    && (forall i :: 0 <= i < |c.overwrites| ==>
         IdOf(c.overwrites[i]) in inv && inv[IdOf(c.overwrites[i])].product == c.product)
    && (forall id :: id in inv ==> inv[id].batch != Some(c.batch))
  }

  /** The row's item carries the batch exactly while its overwrite lasts. */
  predicate RowTold(c: Import, w: World, i: nat)
    requires i < |c.overwrites|
  {
    var id := IdOf(c.overwrites[i]);
    && id in w.inv && w.inv[id].product == c.product
    && (w.inv[id].batch == Some(c.batch) <==> i in w.hit && i !in w.lost)
    && (i in w.hit ==> i in w.met) && (i in w.broken ==> i in w.met) && (i in w.lost ==> i in w.hit)
    && (i in w.met ==> w.met[i].product == c.product)
    && (i in w.met && i !in w.broken ==>
          (i in w.hit <==> !w.met[i].deleted && w.met[i].hash == c.overwrites[i].hash && w.met[i].status.Available?))
    && (i in w.broken ==> i !in w.hit)
    && (forall offset :: offset in w.read && id in w.read[offset] ==> i in w.hit)
  }

  /** Each inserted row created an item of its own. */
  ghost predicate AppliedTold(c: Import, w: World) {
    && (forall i :: i in w.applied ==> i in w.tried && i < |c.inserts| && w.applied[i] in w.inv)
    && (forall i, j :: i in w.applied && j in w.applied && w.applied[i] == w.applied[j] ==> i == j)
  }

  ghost predicate Told(c: Import, w: World) {
    && (forall i: nat :: i < |c.overwrites| ==> RowTold(c, w, i))
    && AppliedTold(c, w)
  }

  lemma BeginsTold(c: Import, inv: Inventory)
    requires Begins(c, inv)
    ensures Told(c, Start(inv))
  {
  }

  lemma OtherTold(c: Import, w: World, write: Write, i: nat)
    requires i < |c.overwrites| && RowTold(c, w, i) && Foreign(write, c.batch)
    ensures RowTold(c, Step(c, w, Other(write)), i)
  {
  }

  lemma OverwriteTold(c: Import, w: World, k: nat, broken: bool, i: nat)
    requires k < |c.overwrites| && i < |c.overwrites| && DistinctIds(c.overwrites)
    requires RowTold(c, w, i) && RowTold(c, w, k) && k !in w.met
    ensures RowTold(c, AfterOverwrite(c, w, k, broken), i)
  {
    assert i != k ==> IdOf(c.overwrites[i]) != IdOf(c.overwrites[k]);
  }

  lemma InsertTold(c: Import, w: World, k: nat, id: nat, broken: bool)
    requires k < |c.inserts| && k !in w.tried && Told(c, w)
    ensures Told(c, AfterInsert(c, w, k, id, broken))
  {
    forall i: nat | i < |c.overwrites| ensures RowTold(c, AfterInsert(c, w, k, id, broken), i) {
      assert RowTold(c, w, i);
    }
  }

  lemma ReadTold(c: Import, w: World, offset: nat)
    requires Told(c, w)
    ensures Told(c, Step(c, w, ReadBack(offset)))
  {
    forall i: nat | i < |c.overwrites| ensures RowTold(c, Step(c, w, ReadBack(offset)), i) { assert RowTold(c, w, i); }
  }

  lemma OtherApplied(c: Import, w: World, write: Write)
    requires AppliedTold(c, w)
    ensures AppliedTold(c, Step(c, w, Other(write)))
  {
    forall id | id in w.inv ensures id in Written(w.inv, write) { }
  }

  lemma StepTold(c: Import, w: World, a: Action)
    requires Told(c, w) && DistinctIds(c.overwrites)
    ensures Told(c, Step(c, w, a))
  {
    match a
    case Insert(k, id, broken) => if k < |c.inserts| && k !in w.tried { InsertTold(c, w, k, id, broken); }
    case Overwrite(k, broken) =>
      if k < |c.overwrites| && k !in w.met && IdOf(c.overwrites[k]) in w.inv {
        forall i: nat | i < |c.overwrites| ensures RowTold(c, AfterOverwrite(c, w, k, broken), i) {
          OverwriteTold(c, w, k, broken, i);
        }
      }
    case ReadBack(offset) => ReadTold(c, w, offset);
    case Other(write) =>
      OtherApplied(c, w, write);
      if Foreign(write, c.batch) {
        forall i: nat | i < |c.overwrites| ensures RowTold(c, Step(c, w, a), i) { OtherTold(c, w, write, i); }
      }
  }

  lemma {:induction false} RunTold(c: Import, w: World, actions: seq<Action>)
    requires Told(c, w) && DistinctIds(c.overwrites)
    ensures Told(c, Run(c, w, actions))
    decreases |actions|
  {
    if actions != [] {
      StepTold(c, w, actions[0]);
      RunTold(c, Step(c, w, actions[0]), actions[1..]);
    }
  }

  // ---- The counts are of writes that took effect ---------------------------

  lemma {:induction false} RunThen(c: Import, w: World, actions: seq<Action>, a: Action)
    ensures Run(c, w, actions + [a]) == Step(c, Run(c, w, actions), a)
    decreases |actions|
  {
    if actions == [] { assert [] + [a] == [a] && [a][1..] == []; }
    else {
      assert (actions + [a])[1..] == actions[1..] + [a];
      RunThen(c, Step(c, w, actions[0]), actions[1..], a);
    }
  }

  /** The insert takes effect: the product holds no such item, and gets one. */
  predicate Creates(c: Import, w: World, a: Action, i: nat) {
    && a.Insert? && a.i == i && !a.broken && i < |c.inserts| && a.id !in w.inv
    && !Held(w.inv, c.product, c.inserts[i].hash)
    && Step(c, w, a).inv == w.inv[a.id := Imported(c.product, c.inserts[i].hash, c.batch)]
  }

  /** The overwrite takes effect: its item is in stock with the row's content. */
  predicate Hits(c: Import, w: World, a: Action, i: nat) {
    && a.Overwrite? && a.i == i && !a.broken && i < |c.overwrites| && Meets(c, w.inv, c.overwrites[i])
    && var id := IdOf(c.overwrites[i]); Step(c, w, a).inv == w.inv[id := w.inv[id].(batch := Some(c.batch))]
  }

  /** Main result: every insert counted as applied created an item its product did
      not hold, and every overwrite counted as a hit met its own content in stock. */
  lemma {:induction false} EffectsAreReal(c: Import, inv: Inventory, actions: seq<Action>, i: nat)
    ensures var w := Run(c, Start(inv), actions);
      && (i in w.applied ==>
            exists k :: 0 <= k < |actions| && Creates(c, Run(c, Start(inv), actions[..k]), actions[k], i))
      && (i in w.hit ==> exists k :: 0 <= k < |actions| && Hits(c, Run(c, Start(inv), actions[..k]), actions[k], i))
    decreases |actions|
  {
    if actions != [] {
      var n := |actions| - 1;
      var before := Run(c, Start(inv), actions[..n]);
      assert actions == actions[..n] + [actions[n]];
      RunThen(c, Start(inv), actions[..n], actions[n]);
      EffectsAreReal(c, inv, actions[..n], i);
      forall k | 0 <= k < n ensures actions[..n][..k] == actions[..k] { }
      var w := Run(c, Start(inv), actions);
      if i in w.applied && i !in before.applied { assert Creates(c, before, actions[n], i); }
      if i in w.hit && i !in before.hit { assert Hits(c, before, actions[n], i); }
      if i in before.applied {
        var k :| 0 <= k < n && Creates(c, Run(c, Start(inv), actions[..n][..k]), actions[..n][k], i);
        assert Creates(c, Run(c, Start(inv), actions[..k]), actions[k], i);
      }
      if i in before.hit {
        var k :| 0 <= k < n && Hits(c, Run(c, Start(inv), actions[..n][..k]), actions[..n][k], i);
        assert Hits(c, Run(c, Start(inv), actions[..k]), actions[k], i);
      }
    }
  }

  function AppliedIn(w: World): nat -> bool { (i: nat) => i in w.applied }

  lemma {:induction false} CountIsSize(applied: nat -> bool, n: nat)
    ensures CountApplied(applied, 0, n) == |set i: nat | i < n && applied(i)|
  {
    var now := set i: nat | i < n && applied(i);
    if n > 0 {
      var before := set i: nat | i < n - 1 && applied(i);
      CountIsSize(applied, n - 1);
      assert now == if applied(n - 1) then before + {n - 1} else before;
    } else { assert now == {}; }
  }

  lemma AppliedCount(c: Import, w: World)
    requires Told(c, w)
    ensures CountApplied(AppliedIn(w), 0, |c.inserts|) == |w.applied|
  {
    CountIsSize(AppliedIn(w), |c.inserts|);
    assert (set i: nat | i < |c.inserts| && AppliedIn(w)(i)) == w.applied.Keys;
  }

  /** Main result: the imported count is the number of items the import created
      plus the refusals no reply reported; it is the number of items created if and
      only if every refused row was reported. */
  lemma ImportedCountsItems(c: Import, inv: Inventory, actions: seq<Action>, size: nat, replyAt: nat -> Reply)
    requires size > 0 && Begins(c, inv) && InsertFrom(c.inserts, 0, size, replyAt).Some?
    requires AllTruthful(c.inserts, 0, size, replyAt, AppliedIn(Run(c, Start(inv), actions)))
    ensures var w := Run(c, Start(inv), actions); var written := InsertFrom(c.inserts, 0, size, replyAt).value.written;
      && written == |w.applied| + SilentFrom(c.inserts, 0, size, replyAt, AppliedIn(w))
      && (written == |w.applied| <==> forall i: nat :: i < |c.inserts| ==> AccountedFor(i, size, replyAt, AppliedIn(w)))
  {
    var w := Run(c, Start(inv), actions);
    BeginsTold(c, inv);
    RunTold(c, Start(inv), actions);
    AppliedCount(c, w);
    InsertsAddUp(c.inserts, size, replyAt, AppliedIn(w));
    InsertCountIsExact(c.inserts, size, replyAt, AppliedIn(w));
  }

  // ---- Overwritten rows ----------------------------------------------------

  /** The reply to the row's chunk reports its write as failed. */
  predicate Reported(i: nat, size: nat, replyAt: nat -> OverwriteReply)
    requires size > 0
  {
    i - ChunkOf(i, size) in Indexes(RejectedBy(replyAt(ChunkOf(i, size))))
  }

  /** Its item was found stamped by the query after its chunk. */
  predicate Carried(rows: seq<Prepared>, i: nat, size: nat, replyAt: nat -> OverwriteReply)
    requires size > 0 && i < |rows|
  {
    !Reported(i, size, replyAt) && IdOf(rows[i]) in replyAt(ChunkOf(i, size)).stamped
  }

  function CarriedRows(rows: seq<Prepared>, from: nat, size: nat, replyAt: nat -> OverwriteReply): set<nat>
    requires size > 0
  {
    set i | from <= i < |rows| && Carried(rows, i, size, replyAt)
  }

  /** The rows of a chunk that are kept and stamped, by their place in it. */
  function KeptStamped(chunk: seq<Prepared>, rejected: set<nat>, stamped: set<nat>, n: nat): set<nat>
    requires n <= |chunk|
  {
    set k | 0 <= k < n && k !in rejected && IdOf(chunk[k]) in stamped
  }

  lemma {:induction false} KeptStampedCount(chunk: seq<Prepared>, rejected: set<nat>, stamped: set<nat>, n: nat)
    requires n <= |chunk| && DistinctIds(chunk)
    ensures |UpdatedIds(Kept(chunk, rejected, n), stamped)| == |KeptStamped(chunk, rejected, stamped, n)|
  {
    if n == 0 { NothingKept(chunk, rejected, stamped); }
    else {
      KeptStampedCount(chunk, rejected, stamped, n - 1);
      IdsStep(chunk, rejected, stamped, n);
      PlacesStep(chunk, rejected, stamped, n);
    }
  }

  lemma NothingKept(chunk: seq<Prepared>, rejected: set<nat>, stamped: set<nat>)
    ensures |UpdatedIds(Kept(chunk, rejected, 0), stamped)| == |KeptStamped(chunk, rejected, stamped, 0)| == 0
  {
  }

  /** A row that is neither rejected nor missing its stamp adds one. */
  function Adds(chunk: seq<Prepared>, rejected: set<nat>, stamped: set<nat>, k: nat): nat
    requires k < |chunk|
  {
    if k !in rejected && IdOf(chunk[k]) in stamped then 1 else 0
  }

  lemma IdsStep(chunk: seq<Prepared>, rejected: set<nat>, stamped: set<nat>, n: nat)
    requires 0 < n <= |chunk| && DistinctIds(chunk)
    ensures |UpdatedIds(Kept(chunk, rejected, n), stamped)| ==
            |UpdatedIds(Kept(chunk, rejected, n - 1), stamped)| + Adds(chunk, rejected, stamped, n - 1)
  {
    var kept, more := Kept(chunk, rejected, n - 1), Kept(chunk, rejected, n);
    KeptIds(chunk, rejected, n);
    if n - 1 in rejected { assert more == kept; }
    else {
      assert more[..|more| - 1] == kept && more[|more| - 1] == chunk[n - 1];
      UpdatedStep(more, stamped);
    }
  }

  lemma PlacesStep(chunk: seq<Prepared>, rejected: set<nat>, stamped: set<nat>, n: nat)
    requires 0 < n <= |chunk|
    ensures |KeptStamped(chunk, rejected, stamped, n)| ==
            |KeptStamped(chunk, rejected, stamped, n - 1)| + Adds(chunk, rejected, stamped, n - 1)
  {
    var before, now := KeptStamped(chunk, rejected, stamped, n - 1), KeptStamped(chunk, rejected, stamped, n);
    assert now == if Adds(chunk, rejected, stamped, n - 1) == 1 then before + {n - 1} else before;
  }

  function Shifted(places: set<nat>, offset: nat): set<nat> { set k | k in places :: offset + k }

  lemma ShiftedHolds(places: set<nat>, offset: nat, i: nat)
    requires offset <= i
    ensures i in Shifted(places, offset) <==> i - offset in places
  {
    if i - offset in places { assert offset + (i - offset) == i; }
  }

  lemma {:induction false} SameSize(places: set<nat>, offset: nat)
    ensures |Shifted(places, offset)| == |places|
    decreases |places|
  {
    if places == {} { assert Shifted(places, offset) == {}; }
    else {
      var k :| k in places;
      SameSize(places - {k}, offset);
      forall j: nat ensures j in Shifted(places, offset) <==> j in Shifted(places - {k}, offset) + {offset + k} {
        if offset <= j { ShiftedHolds(places, offset, j); ShiftedHolds(places - {k}, offset, j); }
      }
      assert Shifted(places, offset) == Shifted(places - {k}, offset) + {offset + k};
      ShiftedHolds(places - {k}, offset, offset + k);
    }
  }

  /** The rows of a chunk that are kept and stamped, by their place in the list. */
  function CarriedIn(chunk: seq<Prepared>, offset: nat, reply: OverwriteReply): set<nat> {
    Shifted(KeptStamped(chunk, Indexes(RejectedBy(reply)), reply.stamped, |chunk|), offset)
  }

  lemma ChunkCount(chunk: seq<Prepared>, offset: nat, reply: OverwriteReply)
    requires DistinctIds(chunk)
    ensures OverwriteChunk(chunk, offset, reply).written == |CarriedIn(chunk, offset, reply)|
  {
    KeptStampedCount(chunk, Indexes(RejectedBy(reply)), reply.stamped, |chunk|);
    SameSize(KeptStamped(chunk, Indexes(RejectedBy(reply)), reply.stamped, |chunk|), offset);
  }

  lemma DistinctChunk(rows: seq<Prepared>, offset: nat, end: nat)
    requires DistinctIds(rows) && offset <= end <= |rows|
    ensures DistinctIds(rows[offset..end])
  {
  }

  lemma CarriedHere(rows: seq<Prepared>, offset: nat, end: nat, size: nat, replyAt: nat -> OverwriteReply, i: nat)
    requires size > 0 && IsOffset(offset, size) && offset <= i < end <= |rows| && end <= offset + size
    ensures Carried(rows, i, size, replyAt) <==> i in CarriedIn(rows[offset..end], offset, replyAt(offset))
  {
    ChunkOfIs(i, offset, size);
    assert rows[offset..end][i - offset] == rows[i];
    var reply := replyAt(offset);
    ShiftedHolds(KeptStamped(rows[offset..end], Indexes(RejectedBy(reply)), reply.stamped, end - offset),
                 offset, i);
  }

  lemma CarriedSplit(rows: seq<Prepared>, offset: nat, end: nat, size: nat, replyAt: nat -> OverwriteReply)
    requires size > 0 && IsOffset(offset, size) && offset < |rows| && end == ChunkEnd(rows, offset, size)
    ensures |CarriedRows(rows, offset, size, replyAt)| ==
            |CarriedIn(rows[offset..end], offset, replyAt(offset))| + |CarriedRows(rows, end, size, replyAt)|
  {
    var here, later := CarriedIn(rows[offset..end], offset, replyAt(offset)), CarriedRows(rows, end, size, replyAt);
    forall i: nat | offset <= i < end ensures Carried(rows, i, size, replyAt) <==> i in here {
      CarriedHere(rows, offset, end, size, replyAt, i);
    }
    forall i | i in here ensures offset <= i < end { }
    assert CarriedRows(rows, offset, size, replyAt) == here + later && here !! later;
  }

  lemma {:induction false} OverwrittenAre(rows: seq<Prepared>, offset: nat, size: nat, replyAt: nat -> OverwriteReply)
    requires size > 0 && offset <= |rows| && (IsOffset(offset, size) || offset == |rows|) && DistinctIds(rows)
    requires OverwriteFrom(rows, offset, size, replyAt).Some?
    ensures OverwriteFrom(rows, offset, size, replyAt).value.written == |CarriedRows(rows, offset, size, replyAt)|
    decreases |rows| - offset
  {
    if offset < |rows| {
      var end := ChunkEnd(rows, offset, size);
      DistinctChunk(rows, offset, end);
      ChunkCount(rows[offset..end], offset, replyAt(offset));
      CarriedSplit(rows, offset, end, size, replyAt);
      OverwrittenAre(rows, end, size, replyAt);
    } else { assert CarriedRows(rows, offset, size, replyAt) == {}; }
  }

  /** The replies hold what the queries of the run found. */
  ghost predicate ReadsFit(c: Import, w: World, size: nat, replyAt: nat -> OverwriteReply)
    requires size > 0
  {
    forall i: nat :: i < |c.overwrites| ==>
      ChunkOf(i, size) in w.read && replyAt(ChunkOf(i, size)).stamped == w.read[ChunkOf(i, size)]
  }

  /** Main result: the overwritten count is the number of rows not reported as
      failed whose item carried the batch when it was read back, and each of those
      rows was really overwritten. */
  lemma OverwrittenCountsItems(c: Import, inv: Inventory, actions: seq<Action>, size: nat,
                               replyAt: nat -> OverwriteReply)
    requires size > 0 && Begins(c, inv) && ReadsFit(c, Run(c, Start(inv), actions), size, replyAt)
    requires OverwriteFrom(c.overwrites, 0, size, replyAt).Some?
    ensures var w := Run(c, Start(inv), actions); var rows := CarriedRows(c.overwrites, 0, size, replyAt);
      && OverwriteFrom(c.overwrites, 0, size, replyAt).value.written == |rows|
      && (forall i :: i in rows <==>
            && 0 <= i < |c.overwrites| && !Reported(i, size, replyAt)
            && IdOf(c.overwrites[i]) in w.read[ChunkOf(i, size)])
      && rows <= w.hit
  {
    var w := Run(c, Start(inv), actions);
    BeginsTold(c, inv);
    RunTold(c, Start(inv), actions);
    OverwrittenAre(c.overwrites, 0, size, replyAt);
    forall i | i in CarriedRows(c.overwrites, 0, size, replyAt) ensures i in w.hit { assert RowTold(c, w, i); }
  }

  // ---- Rows reported as taken ----------------------------------------------

  /** The item was out of stock when the row's turn came, so it was protected. */
  predicate WasTaken(w: World, i: nat)
    requires i in w.met
  {
    i !in w.hit && !w.met[i].status.Available?
  }

  /** It was in stock, but deleted or with its content renamed. */
  predicate WasChanged(c: Import, w: World, i: nat)
    requires i in w.met && i < |c.overwrites|
  {
    w.met[i].status.Available? && (w.met[i].deleted || w.met[i].hash != c.overwrites[i].hash)
  }

  /** Main result: take a row whose write did not fail of itself and whose item
      does not carry the batch when it is read back, so that it is reported as taken
      and protected.  The report is true if and only if no other import stamped the
      item after this one had overwritten it, and the item had not been deleted or
      renamed while in stock. */
  lemma TakenReportIsTrue(c: Import, inv: Inventory, actions: seq<Action>, i: nat)
    requires Begins(c, inv) && i < |c.overwrites|
    requires var w := Run(c, Start(inv), actions);
      i in w.met && i !in w.broken && IdOf(c.overwrites[i]) !in Stamped(w.inv, c.batch)
    ensures var w := Run(c, Start(inv), actions); WasTaken(w, i) <==> i !in w.lost && !WasChanged(c, w, i)
  {
    BeginsTold(c, inv);
    RunTold(c, Start(inv), actions);
    assert RowTold(c, Run(c, Start(inv), actions), i);
  }

  lemma {:induction false} ProtectedAre(rows: seq<Prepared>, n: nat, stamped: set<nat>, e: ImportError)
    requires n <= |rows|
    ensures e in ProtectedErrors(rows, n, stamped) <==>
            e.reason == BecameTaken && exists k :: 0 <= k < n && rows[k].line == e.line && IdOf(rows[k]) !in stamped
  {
    if n > 0 { ProtectedAre(rows, n - 1, stamped, e); }
  }

  lemma {:induction false} KeptAre(chunk: seq<Prepared>, rejected: set<nat>, n: nat, row: Prepared)
    requires n <= |chunk|
    ensures row in Kept(chunk, rejected, n) <==> exists k :: 0 <= k < n && k !in rejected && chunk[k] == row
  {
    if n > 0 { KeptAre(chunk, rejected, n - 1, row); }
  }

  lemma {:induction false} RejectErrorsAre(es: seq<WriteError>, n: nat, chunk: seq<Prepared>, offset: nat,
                                           e: ImportError)
    requires n <= |es| && e in RejectErrors(es, n, chunk, offset)
    ensures e.reason == OverwriteRejected
  {
    if n > 0 && e in RejectErrors(es, n - 1, chunk, offset) { RejectErrorsAre(es, n - 1, chunk, offset, e); }
  }

  /** A row neither reported as failed nor found stamped. */
  predicate Missed(rows: seq<Prepared>, i: nat, size: nat, replyAt: nat -> OverwriteReply, line: nat)
    requires size > 0
  {
    && i < |rows| && rows[i].line == line && !Reported(i, size, replyAt)
    && IdOf(rows[i]) !in replyAt(ChunkOf(i, size)).stamped
  }

  /** The chunk reports the lines of the rows it kept and did not find. */
  lemma ChunkTaken(chunk: seq<Prepared>, offset: nat, reply: OverwriteReply, line: nat)
    ensures ImportError(line, BecameTaken) in OverwriteChunk(chunk, offset, reply).errors <==>
            exists j :: 0 <= j < |chunk| && KeptUnstamped(chunk, reply, j, line)
  {
    var es, e := RejectedBy(reply), ImportError(line, BecameTaken);
    var kept := Kept(chunk, Indexes(es), |chunk|);
    ProtectedAre(kept, |kept|, reply.stamped, e);
    if e in RejectErrors(es, |es|, chunk, offset) { RejectErrorsAre(es, |es|, chunk, offset, e); }
    if k :| 0 <= k < |kept| && kept[k].line == line && IdOf(kept[k]) !in reply.stamped {
      KeptAre(chunk, Indexes(es), |chunk|, kept[k]);
      assert kept[k] in kept;
      var j :| 0 <= j < |chunk| && j !in Indexes(es) && chunk[j] == kept[k];
      assert KeptUnstamped(chunk, reply, j, line);
    }
    if j :| 0 <= j < |chunk| && KeptUnstamped(chunk, reply, j, line) {
      KeptAre(chunk, Indexes(es), |chunk|, chunk[j]);
      assert chunk[j] in kept;
      var k :| 0 <= k < |kept| && kept[k] == chunk[j];
    }
  }

  predicate KeptUnstamped(chunk: seq<Prepared>, reply: OverwriteReply, j: int, line: nat)
    requires 0 <= j < |chunk|
  {
    j !in Indexes(RejectedBy(reply)) && chunk[j].line == line && IdOf(chunk[j]) !in reply.stamped
  }

  lemma ChunkMissed(rows: seq<Prepared>, offset: nat, end: nat, size: nat, replyAt: nat -> OverwriteReply, line: nat)
    requires size > 0 && IsOffset(offset, size) && offset < |rows| && end == ChunkEnd(rows, offset, size)
    ensures ImportError(line, BecameTaken) in OverwriteChunk(rows[offset..end], offset, replyAt(offset)).errors <==>
            exists i: nat :: offset <= i < end && Missed(rows, i, size, replyAt, line)
  {
    var chunk, reply := rows[offset..end], replyAt(offset);
    ChunkTaken(chunk, offset, reply, line);
    forall j | 0 <= j < |chunk|
      ensures KeptUnstamped(chunk, reply, j, line) <==> Missed(rows, offset + j, size, replyAt, line)
    {
      ChunkOfIs(offset + j, offset, size);
    }
    forall i: nat | offset <= i < end && Missed(rows, i, size, replyAt, line)
      ensures KeptUnstamped(chunk, reply, i - offset, line)
    {
      assert Missed(rows, offset + (i - offset), size, replyAt, line);
    }
  }

  /** A line is reported as taken exactly when its row was neither reported as
      failed nor found stamped. */
  lemma {:induction false} TakenReportsAre(rows: seq<Prepared>, offset: nat, size: nat, replyAt: nat -> OverwriteReply,
                                           line: nat)
    requires size > 0 && offset <= |rows| && (IsOffset(offset, size) || offset == |rows|)
    requires OverwriteFrom(rows, offset, size, replyAt).Some?
    ensures ImportError(line, BecameTaken) in OverwriteFrom(rows, offset, size, replyAt).value.errors <==>
            exists i: nat :: offset <= i && Missed(rows, i, size, replyAt, line)
    decreases |rows| - offset
  {
    if offset < |rows| {
      var end := ChunkEnd(rows, offset, size);
      ChunkMissed(rows, offset, end, size, replyAt, line);
      TakenReportsAre(rows, end, size, replyAt, line);
    }
  }

  /** An overwritten item that another import stamps before it is read back is
      reported as taken and protected, although it was overwritten. */
  lemma RestampedRowIsReported(row: Prepared, batch: nat, other: nat)
    requires row.existing == Some(7) && batch != other
    ensures var c := Import(1, batch, [], [row]);
      var inv := map[7 := Stock(1, row.hash, ShopDatabase.Available, None, false)];
      var w := Run(c, Start(inv), [Overwrite(0, false), Other(OverwriteRow(7, 1, row.hash, other)), ReadBack(0)]);
      && Begins(c, inv) && 0 in w.hit && 0 in w.lost && 0 in w.read && 7 !in w.read[0]
  {
    var c := Import(1, batch, [], [row]);
    var inv := map[7 := Stock(1, row.hash, ShopDatabase.Available, None, false)];
    var first, second := Overwrite(0, false), Other(OverwriteRow(7, 1, row.hash, other));
    RunThen(c, Start(inv), [], first);
    RunThen(c, Start(inv), [first], second);
    RunThen(c, Start(inv), [first, second], ReadBack(0));
    assert [] + [first] == [first] && [first] + [second] == [first, second];
    assert [first, second] + [ReadBack(0)] == [first, second, ReadBack(0)];
    var hit := Step(c, Start(inv), first);
    assert hit.hit == {0} && hit.inv == map[7 := Stock(1, row.hash, ShopDatabase.Available, Some(batch), false)];
    var lost := Step(c, hit, second);
    assert 0 in lost.lost && lost.inv[7].batch == Some(other);
  }

  /** One item, in stock and not of this batch, that the row's overwrite misses. */
  predicate Misfit(inv: Inventory, row: Prepared) {
    && inv.Keys == {7} && inv[7].status.Available? && inv[7].batch == None
    && (inv[7].deleted || inv[7].hash != row.hash)
  }

  lemma ChangeMisfits(inv: Inventory, row: Prepared, change: Write, renamed: Hash)
    requires inv == map[7 := Stock(1, row.hash, ShopDatabase.Available, None, false)] && renamed != row.hash
    requires change == Remove(7) || change == Rename(1, map[row.hash := renamed])
    ensures Misfit(Written(inv, change), row)
  {
  }

  lemma MisfitIsMissed(c: Import, w: World, row: Prepared)
    requires c.overwrites == [row] && row.existing == Some(7) && Misfit(w.inv, row) && 0 !in w.met && 0 !in w.hit
    ensures var next := Step(c, Step(c, w, Overwrite(0, false)), ReadBack(0));
      && next.met == w.met[0 := w.inv[7]] && next.hit == w.hit && next.lost == w.lost
      && 0 in next.read && 7 !in next.read[0]
  {
    var met := Step(c, w, Overwrite(0, false));
    assert met.inv == w.inv && met.met == w.met[0 := w.inv[7]];
  }

  /** An item that is deleted in stock, or whose content is renamed, before its
      overwrite is reported as taken and protected, although nobody took it. */
  lemma ChangedRowIsReported(row: Prepared, batch: nat, change: Write, renamed: Hash)
    requires row.existing == Some(7) && renamed != row.hash
    requires change == Remove(7) || change == Rename(1, map[row.hash := renamed])
    ensures var c := Import(1, batch, [], [row]);
      var inv := map[7 := Stock(1, row.hash, ShopDatabase.Available, None, false)];
      var w := Run(c, Start(inv), [Other(change), Overwrite(0, false), ReadBack(0)]);
      && Begins(c, inv) && 0 in w.met && 0 in w.read && 7 !in w.read[0]
      && 0 !in w.lost && WasChanged(c, w, 0) && !WasTaken(w, 0)
  {
    var c := Import(1, batch, [], [row]);
    var inv := map[7 := Stock(1, row.hash, ShopDatabase.Available, None, false)];
    var first, second := Other(change), Overwrite(0, false);
    RunThen(c, Start(inv), [], first);
    RunThen(c, Start(inv), [first], second);
    RunThen(c, Start(inv), [first, second], ReadBack(0));
    assert [] + [first] == [first] && [first] + [second] == [first, second];
    assert [first, second] + [ReadBack(0)] == [first, second, ReadBack(0)];
    ChangeMisfits(inv, row, change, renamed);
    assert Step(c, Start(inv), first) == Start(inv).(inv := Written(inv, change));
    MisfitIsMissed(c, Step(c, Start(inv), first), row);
  }

  // ---- Items out of stock --------------------------------------------------

  /** The item is held, sold or disabled before every one of the actions. */
  predicate StaysTaken(c: Import, w: World, actions: seq<Action>, id: nat)
    decreases |actions|
  {
    && id in w.inv && !w.inv[id].status.Available?
    && (actions != [] ==> StaysTaken(c, Step(c, w, actions[0]), actions[1..], id))
  }

  /** The hash after an action, which may be a rename that goes through. */
  function HashAfter(c: Import, w: World, a: Action, product: nat, hash: Hash): Hash {
    if a.Other? && a.write.Rename? && a.write.product == product && RenameFits(w.inv, product, a.write.rehash)
    then Rehashed(a.write.rehash, hash) else hash
  }

  lemma TakenStep(c: Import, w: World, a: Action, id: nat)
    requires id in w.inv && !w.inv[id].status.Available?
    ensures var before := w.inv[id]; var inv := Step(c, w, a).inv;
      && id in inv && inv[id].product == before.product && inv[id].batch == before.batch &&
         inv[id].deleted == before.deleted
      && inv[id].hash == if before.deleted then before.hash else HashAfter(c, w, a, before.product, before.hash)
  {
    match a
    case Insert(_, _, _) =>
    case Overwrite(_, _) =>
    case ReadBack(_) =>
    case Other(write) =>
      match write
      case InsertRow(_, _, _, _) =>
      case OverwriteRow(_, _, _, _) =>
      case SetStatus(_, _) =>
      case Remove(_) =>
      case Rename(_, _) =>
  }

  /** The hash after all of them. */
  function RenamedBy(c: Import, w: World, actions: seq<Action>, product: nat, hash: Hash): Hash
    decreases |actions|
  {
    if actions == [] then hash
    else RenamedBy(c, Step(c, w, actions[0]), actions[1..], product, HashAfter(c, w, actions[0], product, hash))
  }

  /** Main result: whatever is written, an item that stays out of stock keeps the
      batch it came from, and its content changes by renames of its product's
      fields alone. */
  lemma {:induction false} TakenItemsKeepTheirContent(c: Import, w: World, actions: seq<Action>, id: nat)
    requires StaysTaken(c, w, actions, id)
    ensures var before := w.inv[id]; var inv := Run(c, w, actions).inv;
      && id in inv && inv[id].product == before.product && inv[id].batch == before.batch &&
         inv[id].deleted == before.deleted
      && inv[id].hash == if before.deleted then before.hash else RenamedBy(c, w, actions, before.product, before.hash)
    decreases |actions|
  {
    if actions != [] {
      TakenStep(c, w, actions[0], id);
      TakenItemsKeepTheirContent(c, Step(c, w, actions[0]), actions[1..], id);
    }
  }

  // ---- What is prepared ----------------------------------------------------

  /** What the query for the product's items finds. */
  ghost predicate FoundIn(inv: Inventory, product: nat, found: map<Hash, Existing>) {
    && (forall h :: h in found ==> Matches(inv, found[h].id, product, h) && inv[found[h].id].status == found[h].status)
    && (forall id, h :: Matches(inv, id, product, h) ==> h in found)
  }

  /** Main result: a row is prepared for insertion only when the product holds no
      such item, and for overwriting only onto its own item while that is in
      stock; no item is overwritten twice. */
  lemma PreparedFitsStock(inv: Inventory, product: nat, rows: seq<Row>, found: map<Hash, Existing>, overwrite: bool,
                          p: Prepared)
    requires FoundIn(inv, product, found) && p in ReportOf(rows, found, overwrite).prepared
    ensures OneHashEach(found)
    ensures match p.existing
            case None => forall id :: !Matches(inv, id, product, p.hash)
            case Some(id) => overwrite && Matches(inv, id, product, p.hash) && inv[id].status.Available?
  {
    var candidates := Unseen(rows, |rows|);
    forall k | 0 <= k < |candidates| ensures candidates[k].existing == None { UnseenAre(rows, |rows|, candidates[k]); }
    ImportableAre(candidates, |candidates|, found, overwrite, p);
  }

  /** What a report prepares can be written under a new batch. */
  lemma ReportBegins(inv: Inventory, product: nat, batch: nat, rows: seq<Row>, found: map<Hash, Existing>,
                     overwrite: bool)
    requires FoundIn(inv, product, found) && Stamped(inv, batch) == {}
    ensures var prepared := ReportOf(rows, found, overwrite).prepared;
      Begins(Import(product, batch, Inserts(prepared), Overwrites(prepared)), inv)
  {
    var prepared := ReportOf(rows, found, overwrite).prepared;
    var overwrites := Overwrites(prepared);
    assert OneHashEach(found);
    OverwriteIds(rows, found, overwrite);
    forall i | 0 <= i < |overwrites|
      ensures IdOf(overwrites[i]) in inv && inv[IdOf(overwrites[i])].product == product
    {
      assert overwrites[i] in prepared;
      PreparedFitsStock(inv, product, rows, found, overwrite, overwrites[i]);
    }
    forall id | id in inv ensures inv[id].batch != Some(batch) { assert id !in Stamped(inv, batch); }
  }

  /** Main result: a whole commit reports as imported and overwritten what its
      writes did to the collection, whatever ran between them and between its query
      and its first write. */
  lemma CommitCountsItems(inv: Inventory, product: nat, batch: nat, actions: seq<Action>, rows: seq<Row>,
                          found: map<Hash, Existing>, overwrite: bool, size: nat,
                          insertReply: nat -> Reply, overwriteReply: nat -> OverwriteReply)
    requires size > 0 && CommitOf(rows, found, overwrite, size, insertReply, overwriteReply).Some?
    requires FoundIn(inv, product, found) && Stamped(inv, batch) == {}
    requires var prepared := ReportOf(rows, found, overwrite).prepared;
      var c := Import(product, batch, Inserts(prepared), Overwrites(prepared)); var w := Run(c, Start(inv), actions);
      AllTruthful(c.inserts, 0, size, insertReply, AppliedIn(w)) && ReadsFit(c, w, size, overwriteReply)
    ensures var r := CommitOf(rows, found, overwrite, size, insertReply, overwriteReply).value;
      var c := Import(product, batch, Inserts(r.report.prepared), Overwrites(r.report.prepared));
      var w := Run(c, Start(inv), actions);
      && r.importedRows == |w.applied| + SilentFrom(c.inserts, 0, size, insertReply, AppliedIn(w))
      && r.overwrittenRows == |CarriedRows(c.overwrites, 0, size, overwriteReply)|
      && CarriedRows(c.overwrites, 0, size, overwriteReply) <= w.hit
  {
    var prepared := ReportOf(rows, found, overwrite).prepared;
    var c := Import(product, batch, Inserts(prepared), Overwrites(prepared));
    ReportBegins(inv, product, batch, rows, found, overwrite);
    ImportedCountsItems(c, inv, actions, size, insertReply);
    OverwrittenCountsItems(c, inv, actions, size, overwriteReply);
  }
}
