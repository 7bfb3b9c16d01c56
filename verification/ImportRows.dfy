/**
 Importing inventory rows: every row is classified, rows are written in chunks
 whose replies may report rejected writes, and other processes change the
 inventory in between.
 */
module ImportRows {
  import opened Wrappers
  import ShopDatabase

  type Hash = string
  type Status = ShopDatabase.ItemStatus

  const CHUNK := 500

  /** What normalising a row gives: nothing to read, an error, or the hash of its content. */
  datatype Row = BlankRow | BadRow(why: string) | GoodRow(hash: Hash)

  /** An item already in the product's inventory. */
  datatype Existing = Existing(id: nat, status: Status)

  datatype Reason =
    | Blank | Invalid(why: string) | Repeated | InStock | Taken
    | Concurrent | WriteRejected | OverwriteRejected | BecameTaken

  datatype ImportError = ImportError(line: nat, reason: Reason)

  datatype Prepared = Prepared(line: nat, hash: Hash, existing: Option<nat>)

  datatype Report = Report(totalRows: nat, validRows: nat, invalidRows: nat, duplicateRows: nat,
                           overwriteableRows: nat, errors: seq<ImportError>, prepared: seq<Prepared>)

  // ---- What becomes of a line ----------------------------------------------

  predicate SeenBefore(rows: seq<Row>, n: nat, hash: Hash) {
    exists j :: 0 <= j < n && j < |rows| && rows[j] == GoodRow(hash)
  }

  /** The item a row overwrites (if any), or why it is not imported. */
  function Fate(rows: seq<Row>, i: nat, found: map<Hash, Existing>, overwrite: bool): Result<Option<nat>, Reason>
    requires i < |rows|
  {
    match rows[i]
    case BlankRow => Err(Blank)
    case BadRow(why) => Err(Invalid(why))
    case GoodRow(h) =>
      if SeenBefore(rows, i, h) then Err(Repeated)
      else if h !in found then Ok(None)
      else if !found[h].status.Available? then Err(Taken)
      else if overwrite then Ok(Some(found[h].id)) else Err(InStock)
  }

  // ---- The two passes ------------------------------------------------------

  function Unseen(rows: seq<Row>, n: nat): seq<Prepared>
    requires n <= |rows|
  {
    if n == 0 then [] else
    Unseen(rows, n - 1) +
    match rows[n - 1]
    case GoodRow(h) => (if SeenBefore(rows, n - 1, h) then [] else [Prepared(n, h, None)])
    case _ => []
  }

  function FirstErrors(rows: seq<Row>, n: nat): seq<ImportError>
    requires n <= |rows|
  {
    if n == 0 then [] else
    FirstErrors(rows, n - 1) +
    match rows[n - 1]
    case BlankRow => [ImportError(n, Blank)]
    case BadRow(why) => [ImportError(n, Invalid(why))]
    case GoodRow(h) => if SeenBefore(rows, n - 1, h) then [ImportError(n, Repeated)] else []
  }

  function CountInvalid(rows: seq<Row>, n: nat): nat
    requires n <= |rows|
  {
    if n == 0 then 0 else CountInvalid(rows, n - 1) + if rows[n - 1].GoodRow? then 0 else 1
  }

  function Importable(candidates: seq<Prepared>, n: nat, found: map<Hash, Existing>, overwrite: bool): seq<Prepared>
    requires n <= |candidates|
  {
    if n == 0 then [] else
    var row := candidates[n - 1];
    Importable(candidates, n - 1, found, overwrite) +
    if row.hash !in found then [row]
    else if found[row.hash].status.Available? && overwrite then [row.(existing := Some(found[row.hash].id))] else []
  }

  function LateErrors(candidates: seq<Prepared>, n: nat, found: map<Hash, Existing>, overwrite: bool): seq<ImportError>
    requires n <= |candidates|
  {
    if n == 0 then [] else
    var row := candidates[n - 1];
    LateErrors(candidates, n - 1, found, overwrite) +
    if row.hash !in found then []
    else if !found[row.hash].status.Available? then [ImportError(row.line, Taken)]
    else if overwrite then [] else [ImportError(row.line, InStock)]
  }

  function CountFound(candidates: seq<Prepared>, n: nat, found: map<Hash, Existing>): nat
    requires n <= |candidates|
  {
    if n == 0 then 0 else CountFound(candidates, n - 1, found) + if candidates[n - 1].hash in found then 1 else 0
  }

  function CountOverwriteable(candidates: seq<Prepared>, n: nat, found: map<Hash, Existing>): nat
    requires n <= |candidates|
  {
    if n == 0 then 0 else
    CountOverwriteable(candidates, n - 1, found) +
    if candidates[n - 1].hash in found && found[candidates[n - 1].hash].status.Available? then 1 else 0
  }

  function ReportOf(rows: seq<Row>, found: map<Hash, Existing>, overwrite: bool): Report {
    var candidates := Unseen(rows, |rows|);
    var m := |candidates|;
    var prepared := Importable(candidates, m, found, overwrite);
    Repeats(rows, |rows|);
    Report(|rows|, |prepared|, CountInvalid(rows, |rows|),
           |rows| - |candidates| - CountInvalid(rows, |rows|) + CountFound(candidates, m, found),
           CountOverwriteable(candidates, m, found),
           FirstErrors(rows, |rows|) + LateErrors(candidates, m, found, overwrite), prepared)
  }

  lemma {:induction false} Repeats(rows: seq<Row>, n: nat)
    requires n <= |rows|
    ensures |Unseen(rows, n)| + CountInvalid(rows, n) <= n
    ensures |Unseen(rows, n)| + |FirstErrors(rows, n)| == n
  {
    if n > 0 { Repeats(rows, n - 1); }
  }

  lemma {:induction false} Sorted(candidates: seq<Prepared>, n: nat, found: map<Hash, Existing>, overwrite: bool)
    requires n <= |candidates|
    ensures |Importable(candidates, n, found, overwrite)| + |LateErrors(candidates, n, found, overwrite)| == n
    ensures |Importable(candidates, n, found, overwrite)| + CountFound(candidates, n, found) ==
            n + if overwrite then CountOverwriteable(candidates, n, found) else 0
  {
    if n > 0 { Sorted(candidates, n - 1, found, overwrite); }
  }

  /** Main result: valid rows and errors make up the file, and so do valid,
      invalid and duplicate rows once rows kept for overwriting count twice. */
  lemma ReportAddsUp(rows: seq<Row>, found: map<Hash, Existing>, overwrite: bool)
    ensures var r := ReportOf(rows, found, overwrite);
      && r.validRows + |r.errors| == r.totalRows
      && r.validRows + r.invalidRows + r.duplicateRows == r.totalRows + if overwrite then r.overwriteableRows else 0
  {
    Repeats(rows, |rows|);
    var candidates := Unseen(rows, |rows|);
    Sorted(candidates, |candidates|, found, overwrite);
  }

  // ---- Every line has one fate ---------------------------------------------

  lemma {:induction false} UnseenAre(rows: seq<Row>, n: nat, p: Prepared)
    requires n <= |rows|
    ensures p in Unseen(rows, n) <==>
            && 1 <= p.line <= n && p.existing == None
            && rows[p.line - 1] == GoodRow(p.hash) && !SeenBefore(rows, p.line - 1, p.hash)
  {
    if n > 0 { UnseenAre(rows, n - 1, p); }
  }

  lemma {:induction false} FirstErrorsAre(rows: seq<Row>, n: nat, e: ImportError)
    requires n <= |rows|
    ensures e in FirstErrors(rows, n) <==>
            && 1 <= e.line <= n
            && match rows[e.line - 1]
               case BlankRow => e.reason == Blank
               case BadRow(why) => e.reason == Invalid(why)
               case GoodRow(h) => e.reason == Repeated && SeenBefore(rows, e.line - 1, h)
  {
    if n > 0 { FirstErrorsAre(rows, n - 1, e); }
  }

  lemma {:induction false} ImportableAre(candidates: seq<Prepared>, n: nat, found: map<Hash, Existing>, overwrite: bool,
                                         p: Prepared)
    requires n <= |candidates| && forall k :: 0 <= k < |candidates| ==> candidates[k].existing == None
    ensures p in Importable(candidates, n, found, overwrite) <==>
            && p.(existing := None) in candidates[..n]
            && if p.hash in found
               then found[p.hash].status.Available? && overwrite && p.existing == Some(found[p.hash].id)
               else p.existing == None
  {
    if n > 0 {
      ImportableAre(candidates, n - 1, found, overwrite, p);
      assert candidates[..n] == candidates[..n - 1] + [candidates[n - 1]];
    }
  }

  lemma {:induction false} LateErrorsAre(candidates: seq<Prepared>, n: nat, found: map<Hash, Existing>, overwrite: bool,
                                         e: ImportError)
    requires n <= |candidates|
    ensures e in LateErrors(candidates, n, found, overwrite) <==>
            exists k :: 0 <= k < n && candidates[k].line == e.line && candidates[k].hash in found
                        && if found[candidates[k].hash].status.Available? then !overwrite && e.reason == InStock
                           else e.reason == Taken
  {
    if n > 0 { LateErrorsAre(candidates, n - 1, found, overwrite, e); }
  }

  /** A candidate stays when nothing in the inventory speaks against it. */
  lemma PreparedIs(rows: seq<Row>, found: map<Hash, Existing>, overwrite: bool, p: Prepared)
    ensures p in ReportOf(rows, found, overwrite).prepared <==>
            && p.(existing := None) in Unseen(rows, |rows|)
            && if p.hash in found
               then found[p.hash].status.Available? && overwrite && p.existing == Some(found[p.hash].id)
               else p.existing == None
  {
    var candidates := Unseen(rows, |rows|);
    var m := |candidates|;
    forall k | 0 <= k < m ensures candidates[k].existing == None { UnseenAre(rows, |rows|, candidates[k]); }
    assert candidates[..m] == candidates;
    ImportableAre(candidates, m, found, overwrite, p);
  }

  lemma PreparedHasItsFate(rows: seq<Row>, i: nat, found: map<Hash, Existing>, overwrite: bool, p: Prepared)
    requires i < |rows| && p.line == i + 1
    ensures p in ReportOf(rows, found, overwrite).prepared <==>
            rows[i] == GoodRow(p.hash) && Fate(rows, i, found, overwrite) == Ok(p.existing)
  {
    PreparedIs(rows, found, overwrite, p);
    UnseenAre(rows, |rows|, p.(existing := None));
  }

  /** Main result: a line is imported, with the item it overwrites, or reported
      with its reason, exactly as its fate says. */
  lemma EveryLineHasItsFate(rows: seq<Row>, i: nat, found: map<Hash, Existing>, overwrite: bool, p: Prepared,
                            e: ImportError)
    requires i < |rows| && p.line == e.line == i + 1
    ensures p in ReportOf(rows, found, overwrite).prepared <==>
            rows[i] == GoodRow(p.hash) && Fate(rows, i, found, overwrite) == Ok(p.existing)
    ensures e in ReportOf(rows, found, overwrite).errors <==> Fate(rows, i, found, overwrite) == Err(e.reason)
  {
    PreparedHasItsFate(rows, i, found, overwrite, p);
    ErrorHasItsFate(rows, i, found, overwrite, e);
  }

  lemma CandidatesAreUnseen(rows: seq<Row>)
    ensures forall k :: 0 <= k < |Unseen(rows, |rows|)| ==> UnseenLine(rows, Unseen(rows, |rows|)[k])
  {
    var candidates := Unseen(rows, |rows|);
    forall k | 0 <= k < |candidates| ensures UnseenLine(rows, candidates[k]) { UnseenAre(rows, |rows|, candidates[k]); }
  }

  lemma LateFate(rows: seq<Row>, i: nat, found: map<Hash, Existing>, overwrite: bool, e: ImportError)
    requires i < |rows| && e.line == i + 1
    ensures var candidates := Unseen(rows, |rows|);
      e in LateErrors(candidates, |candidates|, found, overwrite) <==>
      && rows[i].GoodRow? && !SeenBefore(rows, i, rows[i].hash) && rows[i].hash in found
      && if found[rows[i].hash].status.Available? then !overwrite && e.reason == InStock else e.reason == Taken
  {
    var candidates := Unseen(rows, |rows|);
    LateErrorsAre(candidates, |candidates|, found, overwrite, e);
    CandidatesAreUnseen(rows);
    if rows[i].GoodRow? {
      var p := Prepared(i + 1, rows[i].hash, None);
      UnseenAre(rows, |rows|, p);
      if p in candidates { var k :| 0 <= k < |candidates| && candidates[k] == p; }
    }
  }

  lemma ErrorHasItsFate(rows: seq<Row>, i: nat, found: map<Hash, Existing>, overwrite: bool, e: ImportError)
    requires i < |rows| && e.line == i + 1
    ensures e in ReportOf(rows, found, overwrite).errors <==> Fate(rows, i, found, overwrite) == Err(e.reason)
  {
    FirstErrorsAre(rows, |rows|, e);
    LateFate(rows, i, found, overwrite, e);
  }

  predicate UnseenLine(rows: seq<Row>, p: Prepared) {
    1 <= p.line <= |rows| && rows[p.line - 1] == GoodRow(p.hash) && !SeenBefore(rows, p.line - 1, p.hash)
  }

  /** The first pass over the file and the pass over what the query found. */
  method Prepare(rows: seq<Row>, found: map<Hash, Existing>, overwrite: bool) returns (r: Report)
    ensures r == ReportOf(rows, found, overwrite)
  {
    var errors: seq<ImportError>, prepared: seq<Prepared>, seen: set<Hash> := [], [], {};
    var duplicateRows: nat, invalidRows: nat := 0, 0;
    for index := 0 to |rows|
      invariant prepared == Unseen(rows, index) && errors == FirstErrors(rows, index)
      invariant invalidRows == CountInvalid(rows, index) && duplicateRows == index - |prepared| - invalidRows
      invariant forall h :: h in seen <==> SeenBefore(rows, index, h)
    {
      var line := index + 1;
      match rows[index] {
        case BlankRow => invalidRows, errors := invalidRows + 1, errors + [ImportError(line, Blank)];
        case BadRow(why) => invalidRows, errors := invalidRows + 1, errors + [ImportError(line, Invalid(why))];
        case GoodRow(hash) =>
          if hash in seen { duplicateRows, errors := duplicateRows + 1, errors + [ImportError(line, Repeated)]; }
          else { seen, prepared := seen + {hash}, prepared + [Prepared(line, hash, None)]; }
      }
      assert rows[index].GoodRow? ==> SeenBefore(rows, line, rows[index].hash);
    }
    ghost var firstErrors, repeated := errors, duplicateRows;
    assert errors == firstErrors + [];
    var overwriteableRows: nat, importable: seq<Prepared> := 0, [];
    for k := 0 to |prepared|
      invariant importable == Importable(prepared, k, found, overwrite)
      invariant errors == firstErrors + LateErrors(prepared, k, found, overwrite)
      invariant duplicateRows == repeated + CountFound(prepared, k, found)
      invariant overwriteableRows == CountOverwriteable(prepared, k, found)
    {
      var row := prepared[k];
      if row.hash !in found { importable := importable + [row]; continue; }
      duplicateRows := duplicateRows + 1;
      if found[row.hash].status.Available? {
        overwriteableRows := overwriteableRows + 1;
        if overwrite { importable := importable + [row.(existing := Some(found[row.hash].id))]; }
        else { errors := errors + [ImportError(row.line, InStock)]; }
      } else { errors := errors + [ImportError(row.line, Taken)]; }
    }
    r := Report(|rows|, |importable|, invalidRows, duplicateRows, overwriteableRows, errors, importable);
  }

  // ---- Chunked inserts -----------------------------------------------------

  datatype WriteError = WriteError(index: nat, duplicate: bool)

  /** The driver's answer to one unordered bulk write. */
  datatype Reply = Acknowledged | Failed(writeErrors: seq<WriteError>, duplicateKey: bool)

  datatype Totals = Totals(written: nat, errors: seq<ImportError>)

  /** Rows accounted for. */
  function Total(t: Totals): nat { t.written + |t.errors| }

  function ChunkEnd(rows: seq<Prepared>, offset: nat, size: nat): nat
    requires offset <= |rows|
  {
    if offset + size <= |rows| then offset + size else |rows|
  }

  function LineOf(chunk: seq<Prepared>, offset: nat, index: nat): nat {
    if index < |chunk| then chunk[index].line else offset + index + 1
  }

  function Imported(reply: Reply, n: nat): nat {
    match reply
    case Acknowledged => n
    case Failed(es, _) => if |es| <= n then n - |es| else 0
  }

  function InsertErrors(es: seq<WriteError>, n: nat, chunk: seq<Prepared>, offset: nat): (r: seq<ImportError>)
    requires n <= |es|
    ensures |r| == n
  {
    if n == 0 then [] else
    var e := es[n - 1];
    InsertErrors(es, n - 1, chunk, offset) +
    [ImportError(LineOf(chunk, offset, e.index), if e.duplicate then Concurrent else WriteRejected)]
  }

  function ReplyErrors(reply: Reply, chunk: seq<Prepared>, offset: nat): seq<ImportError> {
    match reply
    case Acknowledged => []
    case Failed(es, _) => InsertErrors(es, |es|, chunk, offset)
  }

  predicate Throws(reply: Reply) { reply.Failed? && reply.writeErrors == [] && !reply.duplicateKey }

  function Plus(written: nat, errors: seq<ImportError>, more: Option<Totals>): Option<Totals> {
    match more
    case None => None
    case Some(t) => Some(Totals(written + t.written, errors + t.errors))
  }

  /** The chunks from `offset` on; the last one may be short. */
  function InsertFrom(rows: seq<Prepared>, offset: nat, size: nat, replyAt: nat -> Reply): Option<Totals>
    requires size > 0 && offset <= |rows|
    decreases |rows| - offset
  {
    if offset == |rows| then Some(Totals(0, []))
    else if Throws(replyAt(offset)) then None
    else
      var end := ChunkEnd(rows, offset, size);
      Plus(Imported(replyAt(offset), end - offset), ReplyErrors(replyAt(offset), rows[offset..end], offset),
           InsertFrom(rows, end, size, replyAt))
  }

  predicate Distinct(es: seq<WriteError>) { forall j, k :: 0 <= j < k < |es| ==> es[j].index != es[k].index }

  predicate Within(es: seq<WriteError>, n: nat) { forall k :: 0 <= k < |es| ==> es[k].index < n }

  function Indexes(es: seq<WriteError>): set<nat> { set k | 0 <= k < |es| :: es[k].index }

  /** A reply that tells no lie: nothing acknowledged was refused, and each write
      it reports, reported once, was. */
  ghost predicate Truthful(reply: Reply, offset: nat, n: nat, applied: nat -> bool) {
    match reply
    case Acknowledged => forall p: nat :: offset <= p < offset + n ==> applied(p)
    case Failed(es, _) => Distinct(es) && Within(es, n) && forall i :: i in Indexes(es) ==> !applied(offset + i)
  }

  predicate Tells(reply: Reply, i: nat) { reply.Failed? && i in Indexes(reply.writeErrors) }

  function CountApplied(applied: nat -> bool, offset: nat, n: nat): nat {
    if n == 0 then 0 else CountApplied(applied, offset, n - 1) + if applied(offset + n - 1) then 1 else 0
  }

  /** Refused writes the reply is silent about. */
  function CountSilent(reply: Reply, applied: nat -> bool, offset: nat, n: nat): nat {
    if n == 0 then 0 else
    CountSilent(reply, applied, offset, n - 1) + if !applied(offset + n - 1) && !Tells(reply, n - 1) then 1 else 0
  }

  function CountTold(es: seq<WriteError>, n: nat): nat {
    if n == 0 then 0 else CountTold(es, n - 1) + if n - 1 in Indexes(es) then 1 else 0
  }

  lemma {:induction false} IndexesSize(es: seq<WriteError>)
    requires Distinct(es)
    ensures |Indexes(es)| == |es|
  {
    if es != [] {
      var n := |es| - 1;
      IndexesSize(es[..n]);
      assert Indexes(es) == Indexes(es[..n]) + {es[n].index};
    }
  }

  lemma {:induction false} CountToldIs(es: seq<WriteError>, n: nat)
    ensures CountTold(es, n) == |set i | i in Indexes(es) && i < n|
  {
    if n > 0 {
      CountToldIs(es, n - 1);
      var before, now := set i | i in Indexes(es) && i < n - 1, set i | i in Indexes(es) && i < n;
      assert now == if n - 1 in Indexes(es) then before + {n - 1} else before;
    } else { assert (set i | i in Indexes(es) && i < n) == {}; }
  }

  lemma AllTold(es: seq<WriteError>, n: nat)
    requires Distinct(es) && Within(es, n)
    ensures CountTold(es, n) == |es| <= n
  {
    CountToldIs(es, n);
    IndexesSize(es);
    assert (set i | i in Indexes(es) && i < n) == Indexes(es);
    CountToldBound(es, n);
  }

  lemma {:induction false} CountToldBound(es: seq<WriteError>, n: nat)
    ensures CountTold(es, n) <= n
  {
    if n > 0 { CountToldBound(es, n - 1); }
  }

  lemma {:induction false} ToldAndSilent(es: seq<WriteError>, duplicateKey: bool, applied: nat -> bool, offset: nat,
                                         n: nat)
    requires forall i :: i in Indexes(es) ==> !applied(offset + i)
    ensures CountApplied(applied, offset, n) + CountSilent(Failed(es, duplicateKey), applied, offset, n) +
            CountTold(es, n) == n
  {
    if n > 0 {
      assert n - 1 in Indexes(es) ==> !applied(offset + (n - 1));
      ToldAndSilent(es, duplicateKey, applied, offset, n - 1);
    }
  }

  lemma {:induction false} AllApplied(applied: nat -> bool, offset: nat, n: nat)
    requires forall p: nat :: offset <= p < offset + n ==> applied(p)
    ensures CountApplied(applied, offset, n) == n && CountSilent(Acknowledged, applied, offset, n) == 0
  {
    if n > 0 { assert applied(offset + (n - 1)); AllApplied(applied, offset, n - 1); }
  }

  /** A chunk counts as imported what was written and what was refused in silence. */
  lemma ChunkCount(reply: Reply, offset: nat, n: nat, applied: nat -> bool)
    requires Truthful(reply, offset, n, applied)
    ensures Imported(reply, n) == CountApplied(applied, offset, n) + CountSilent(reply, applied, offset, n)
    ensures Imported(reply, n) + (if reply.Failed? then |reply.writeErrors| else 0) == n
  {
    match reply
    case Acknowledged => AllApplied(applied, offset, n);
    case Failed(es, d) => AllTold(es, n); ToldAndSilent(es, d, applied, offset, n);
  }

  /** Every chunk's reply is. */
  ghost predicate AllTruthful(rows: seq<Prepared>, offset: nat, size: nat, replyAt: nat -> Reply, applied: nat -> bool)
    requires size > 0 && offset <= |rows|
    decreases |rows| - offset
  {
    offset < |rows| ==>
      && Truthful(replyAt(offset), offset, ChunkEnd(rows, offset, size) - offset, applied)
      && AllTruthful(rows, ChunkEnd(rows, offset, size), size, replyAt, applied)
  }

  function SilentFrom(rows: seq<Prepared>, offset: nat, size: nat, replyAt: nat -> Reply, applied: nat -> bool): nat
    requires size > 0 && offset <= |rows|
    decreases |rows| - offset
  {
    if offset == |rows| then 0
    else
      var end := ChunkEnd(rows, offset, size);
      CountSilent(replyAt(offset), applied, offset, end - offset) + SilentFrom(rows, end, size, replyAt, applied)
  }

  lemma {:induction false} CountSplit(applied: nat -> bool, offset: nat, n: nat, m: nat)
    ensures CountApplied(applied, offset, n) + CountApplied(applied, offset + n, m) ==
            CountApplied(applied, offset, n + m)
  {
    if m > 0 { CountSplit(applied, offset, n, m - 1); assert offset + n + m - 1 == offset + (n + m) - 1; }
  }

  lemma InsertStep(rows: seq<Prepared>, offset: nat, end: nat, size: nat, replyAt: nat -> Reply)
    requires size > 0 && offset < |rows| && end == ChunkEnd(rows, offset, size) &&
             InsertFrom(rows, offset, size, replyAt).Some?
    ensures InsertFrom(rows, end, size, replyAt).Some?
    ensures var t, more := InsertFrom(rows, offset, size, replyAt).value, InsertFrom(rows, end, size, replyAt).value;
      var reply := replyAt(offset);
      && t.written == Imported(reply, end - offset) + more.written
      && Total(t) == Imported(reply, end - offset) + (if reply.Failed? then |reply.writeErrors| else 0) + Total(more)
  {
  }

  lemma {:induction false} InsertsCovered(rows: seq<Prepared>, offset: nat, size: nat, replyAt: nat -> Reply,
                                          applied: nat -> bool)
    requires size > 0 && offset <= |rows| && AllTruthful(rows, offset, size, replyAt, applied)
    requires InsertFrom(rows, offset, size, replyAt).Some?
    ensures Total(InsertFrom(rows, offset, size, replyAt).value) == |rows| - offset
    decreases |rows| - offset
  {
    if offset < |rows| {
      var end := ChunkEnd(rows, offset, size);
      InsertStep(rows, offset, end, size, replyAt);
      ChunkCount(replyAt(offset), offset, end - offset, applied);
      InsertsCovered(rows, end, size, replyAt, applied);
    }
  }

  /** Every chunk counts as imported what was written and what was refused in silence. */
  predicate ChunksCounted(rows: seq<Prepared>, offset: nat, size: nat, replyAt: nat -> Reply, applied: nat -> bool)
    requires size > 0 && offset <= |rows|
    decreases |rows| - offset
  {
    offset < |rows| ==>
      var end := ChunkEnd(rows, offset, size);
      && Imported(replyAt(offset), end - offset) ==
         CountApplied(applied, offset, end - offset) + CountSilent(replyAt(offset), applied, offset, end - offset)
      && ChunksCounted(rows, end, size, replyAt, applied)
  }

  lemma {:induction false} TruthfulCounts(rows: seq<Prepared>, offset: nat, size: nat, replyAt: nat -> Reply,
                                          applied: nat -> bool)
    requires size > 0 && offset <= |rows| && AllTruthful(rows, offset, size, replyAt, applied)
    ensures ChunksCounted(rows, offset, size, replyAt, applied)
    decreases |rows| - offset
  {
    if offset < |rows| {
      var end := ChunkEnd(rows, offset, size);
      ChunkCount(replyAt(offset), offset, end - offset, applied);
      TruthfulCounts(rows, end, size, replyAt, applied);
    }
  }

  lemma SilentStep(rows: seq<Prepared>, offset: nat, end: nat, size: nat, replyAt: nat -> Reply, applied: nat -> bool)
    requires size > 0 && offset < |rows| && end == ChunkEnd(rows, offset, size)
    ensures SilentFrom(rows, offset, size, replyAt, applied) ==
            CountSilent(replyAt(offset), applied, offset, end - offset) + SilentFrom(rows, end, size, replyAt, applied)
  {
  }

  lemma ChunksStep(rows: seq<Prepared>, offset: nat, end: nat, size: nat, replyAt: nat -> Reply, applied: nat -> bool)
    requires size > 0 && offset < |rows| && end == ChunkEnd(rows, offset, size)
    requires ChunksCounted(rows, offset, size, replyAt, applied)
    ensures ChunksCounted(rows, end, size, replyAt, applied)
    ensures Imported(replyAt(offset), end - offset) + CountApplied(applied, end, |rows| - end) ==
            CountApplied(applied, offset, |rows| - offset) + CountSilent(replyAt(offset), applied, offset, end - offset)
  {
    CountSplit(applied, offset, end - offset, |rows| - end);
  }

  lemma {:induction false} InsertsCounted(rows: seq<Prepared>, offset: nat, size: nat, replyAt: nat -> Reply,
                                          applied: nat -> bool)
    requires size > 0 && offset <= |rows| && ChunksCounted(rows, offset, size, replyAt, applied)
    requires InsertFrom(rows, offset, size, replyAt).Some?
    ensures InsertFrom(rows, offset, size, replyAt).value.written ==
            CountApplied(applied, offset, |rows| - offset) + SilentFrom(rows, offset, size, replyAt, applied)
    decreases |rows| - offset
  {
    if offset < |rows| {
      var end := ChunkEnd(rows, offset, size);
      InsertStep(rows, offset, end, size, replyAt);
      SilentStep(rows, offset, end, size, replyAt, applied);
      ChunksStep(rows, offset, end, size, replyAt, applied);
      InsertsCounted(rows, end, size, replyAt, applied);
    }
  }

  /** Main result: for any chunk size, inserted and reported rows are all rows,
      and the number reported as imported is the number written plus the number
      refused in silence: it is exact if and only if every refusal is reported. */
  lemma InsertsAddUp(rows: seq<Prepared>, size: nat, replyAt: nat -> Reply, applied: nat -> bool)
    requires size > 0 && AllTruthful(rows, 0, size, replyAt, applied) && InsertFrom(rows, 0, size, replyAt).Some?
    ensures var t := InsertFrom(rows, 0, size, replyAt).value;
      && t.written + |t.errors| == |rows|
      && t.written == CountApplied(applied, 0, |rows|) + SilentFrom(rows, 0, size, replyAt, applied)
  {
    InsertsCovered(rows, 0, size, replyAt, applied);
    TruthfulCounts(rows, 0, size, replyAt, applied);
    InsertsCounted(rows, 0, size, replyAt, applied);
  }

  // ---- When the count is exact ---------------------------------------------

  /** Where the chunk of the `i`-th row begins. */
  function ChunkOf(i: nat, size: nat): (offset: nat)
    requires size > 0
    ensures offset <= i < offset + size
  {
    if i < size then 0 else size + ChunkOf(i - size, size)
  }

  predicate IsOffset(offset: nat, size: nat)
    requires size > 0
  {
    offset == 0 || (offset >= size && IsOffset(offset - size, size))
  }

  lemma {:induction false} ChunkOfIs(i: nat, offset: nat, size: nat)
    requires size > 0 && IsOffset(offset, size) && offset <= i < offset + size
    ensures ChunkOf(i, size) == offset
    decreases i
  {
    if offset > 0 { ChunkOfIs(i - size, offset - size, size); }
  }

  /** A write that took effect, or whose refusal its chunk's reply reports. */
  predicate AccountedFor(i: nat, size: nat, replyAt: nat -> Reply, applied: nat -> bool)
    requires size > 0
  {
    applied(i) || Tells(replyAt(ChunkOf(i, size)), i - ChunkOf(i, size))
  }

  lemma {:induction false} NoneSilent(reply: Reply, applied: nat -> bool, offset: nat, n: nat)
    ensures CountSilent(reply, applied, offset, n) == 0 <==>
            forall p: nat :: offset <= p < offset + n ==> applied(p) || Tells(reply, p - offset)
  {
    if n > 0 {
      NoneSilent(reply, applied, offset, n - 1);
      var last: nat := offset + n - 1;
      assert applied(last) || Tells(reply, last - offset) || CountSilent(reply, applied, offset, n) > 0;
    }
  }

  lemma {:induction false} SilentMeans(rows: seq<Prepared>, offset: nat, size: nat, replyAt: nat -> Reply,
                                       applied: nat -> bool)
    requires size > 0 && offset <= |rows| && (IsOffset(offset, size) || offset == |rows|)
    ensures SilentFrom(rows, offset, size, replyAt, applied) == 0 <==>
            forall i: nat :: offset <= i < |rows| ==> AccountedFor(i, size, replyAt, applied)
    decreases |rows| - offset
  {
    if offset < |rows| {
      var end := ChunkEnd(rows, offset, size);
      SilentMeans(rows, end, size, replyAt, applied);
      NoneSilent(replyAt(offset), applied, offset, end - offset);
      forall i: nat | offset <= i < end
        ensures AccountedFor(i, size, replyAt, applied) <==> applied(i) || Tells(replyAt(offset), i - offset)
      { ChunkOfIs(i, offset, size); }
    }
  }

  /** Main result: the imported count is the number of rows written if and only if
      every refused row is reported by the reply to its chunk. */
  lemma InsertCountIsExact(rows: seq<Prepared>, size: nat, replyAt: nat -> Reply, applied: nat -> bool)
    requires size > 0 && AllTruthful(rows, 0, size, replyAt, applied) && InsertFrom(rows, 0, size, replyAt).Some?
    ensures InsertFrom(rows, 0, size, replyAt).value.written == CountApplied(applied, 0, |rows|) <==>
            forall i: nat :: i < |rows| ==> AccountedFor(i, size, replyAt, applied)
  {
    InsertsAddUp(rows, size, replyAt, applied);
    SilentMeans(rows, 0, size, replyAt, applied);
  }

  const NEVER_APPLIED: nat -> bool := _ => false

  const ONLY_DUPLICATE: nat -> Reply := _ => Failed([], true)

  /** A duplicate-key failure without a list of write errors counts its chunk as
      imported although not one row of it was written. */
  lemma UnwrittenChunkIsCounted(rows: seq<Prepared>, size: nat)
    requires rows != [] && |rows| <= size
    ensures AllTruthful(rows, 0, size, ONLY_DUPLICATE, NEVER_APPLIED)
    ensures InsertFrom(rows, 0, size, ONLY_DUPLICATE) == Some(Totals(|rows|, []))
    ensures CountApplied(NEVER_APPLIED, 0, |rows|) == 0
  {
    NoneApplied(|rows|);
    var end := ChunkEnd(rows, 0, size);
    assert end == |rows| && InsertFrom(rows, end, size, ONLY_DUPLICATE) == Some(Totals(0, []));
    assert ReplyErrors(ONLY_DUPLICATE(0), rows[0..end], 0) == [];
    var none: seq<ImportError> := [];
    assert none + none == none;
  }

  lemma {:induction false} NoneApplied(n: nat)
    ensures CountApplied(NEVER_APPLIED, 0, n) == 0
  {
    if n > 0 { NoneApplied(n - 1); }
  }

  lemma {:induction false} InsertErrorsAre(es: seq<WriteError>, n: nat, chunk: seq<Prepared>, offset: nat, k: nat)
    requires k < n <= |es|
    ensures InsertErrors(es, n, chunk, offset)[k] ==
            ImportError(LineOf(chunk, offset, es[k].index), if es[k].duplicate then Concurrent else WriteRejected)
  {
    if k < n - 1 { InsertErrorsAre(es, n - 1, chunk, offset, k); }
  }

  predicate NamesRefused(rows: seq<Prepared>, applied: nat -> bool, e: ImportError) {
    exists i :: 0 <= i < |rows| && rows[i].line == e.line && !applied(i)
  }

  lemma ChunkNamesRefused(rows: seq<Prepared>, offset: nat, end: nat, reply: Reply, applied: nat -> bool,
                          e: ImportError)
    requires offset <= end <= |rows| && Truthful(reply, offset, end - offset, applied)
    requires e in ReplyErrors(reply, rows[offset..end], offset)
    ensures NamesRefused(rows, applied, e)
  {
    var es, chunk := reply.writeErrors, rows[offset..end];
    var k :| 0 <= k < |es| && InsertErrors(es, |es|, chunk, offset)[k] == e;
    InsertErrorsAre(es, |es|, chunk, offset, k);
    var i := offset + es[k].index;
    assert es[k].index in Indexes(es) && chunk[es[k].index] == rows[i];
    assert rows[i].line == e.line && !applied(i);
  }

  /** Main result: every row reported as refused was: its error carries the line
      of a row that was not written. */
  lemma {:induction false} ErrorsNameRefusedRows(rows: seq<Prepared>, offset: nat, size: nat, replyAt: nat -> Reply,
                                                 applied: nat -> bool, e: ImportError)
    requires size > 0 && offset <= |rows| && AllTruthful(rows, offset, size, replyAt, applied)
    requires InsertFrom(rows, offset, size, replyAt).Some? && e in InsertFrom(rows, offset, size, replyAt).value.errors
    ensures NamesRefused(rows, applied, e)
    decreases |rows| - offset
  {
    if offset < |rows| {
      var end := ChunkEnd(rows, offset, size);
      if e in ReplyErrors(replyAt(offset), rows[offset..end], offset) {
        ChunkNamesRefused(rows, offset, end, replyAt(offset), applied, e);
      }
      else { ErrorsNameRefusedRows(rows, end, size, replyAt, applied, e); }
    }
  }

  // ---- Chunked overwrites --------------------------------------------------

  /** The driver's answer to a chunk of overwrites, and the items a later query
      finds stamped with this batch. */
  datatype OverwriteReply = OverwriteReply(failed: Option<seq<WriteError>>, stamped: set<nat>)

  function RejectedBy(reply: OverwriteReply): seq<WriteError> { match reply.failed case None => [] case Some(es) => es }

  /** The rows of a chunk no write error names. */
  function Kept(chunk: seq<Prepared>, rejected: set<nat>, n: nat): seq<Prepared>
    requires n <= |chunk|
  {
    if n == 0 then [] else Kept(chunk, rejected, n - 1) + if n - 1 in rejected then [] else [chunk[n - 1]]
  }

  function IdOf(row: Prepared): nat { match row.existing case None => 0 case Some(id) => id }

  function UpdatedIds(rows: seq<Prepared>, stamped: set<nat>): set<nat> {
    set k | 0 <= k < |rows| && IdOf(rows[k]) in stamped :: IdOf(rows[k])
  }

  function ProtectedErrors(rows: seq<Prepared>, n: nat, stamped: set<nat>): seq<ImportError>
    requires n <= |rows|
  {
    if n == 0 then [] else
    ProtectedErrors(rows, n - 1, stamped) +
    if IdOf(rows[n - 1]) in stamped then [] else [ImportError(rows[n - 1].line, BecameTaken)]
  }

  function RejectErrors(es: seq<WriteError>, n: nat, chunk: seq<Prepared>, offset: nat): (r: seq<ImportError>)
    requires n <= |es|
    ensures |r| == n
  {
    if n == 0 then [] else
    RejectErrors(es, n - 1, chunk, offset) + [ImportError(LineOf(chunk, offset, es[n - 1].index), OverwriteRejected)]
  }

  function OverwriteChunk(chunk: seq<Prepared>, offset: nat, reply: OverwriteReply): Totals {
    var es := RejectedBy(reply);
    var candidates := Kept(chunk, Indexes(es), |chunk|);
    Totals(|UpdatedIds(candidates, reply.stamped)|,
           RejectErrors(es, |es|, chunk, offset) + ProtectedErrors(candidates, |candidates|, reply.stamped))
  }

  function OverwriteFrom(rows: seq<Prepared>, offset: nat, size: nat, replyAt: nat -> OverwriteReply): Option<Totals>
    requires size > 0 && offset <= |rows|
    decreases |rows| - offset
  {
    if offset == |rows| then Some(Totals(0, []))
    else if replyAt(offset).failed == Some([]) then None
    else
      var end := ChunkEnd(rows, offset, size);
      var t := OverwriteChunk(rows[offset..end], offset, replyAt(offset));
      Plus(t.written, t.errors, OverwriteFrom(rows, end, size, replyAt))
  }

  predicate DistinctIds(rows: seq<Prepared>) { forall j, k :: 0 <= j < k < |rows| ==> IdOf(rows[j]) != IdOf(rows[k]) }

  lemma {:induction false} KeptCount(chunk: seq<Prepared>, es: seq<WriteError>, n: nat)
    requires n <= |chunk|
    ensures |Kept(chunk, Indexes(es), n)| + CountTold(es, n) == n
  {
    if n > 0 { KeptCount(chunk, es, n - 1); }
  }

  lemma {:induction false} KeptIds(chunk: seq<Prepared>, rejected: set<nat>, n: nat)
    requires n <= |chunk| && DistinctIds(chunk)
    ensures DistinctIds(Kept(chunk, rejected, n))
    ensures forall row :: row in Kept(chunk, rejected, n) ==> row in chunk[..n]
  {
    if n > 0 {
      KeptIds(chunk, rejected, n - 1);
      assert chunk[..n] == chunk[..n - 1] + [chunk[n - 1]];
      var kept := Kept(chunk, rejected, n - 1);
      forall k | 0 <= k < |kept| ensures IdOf(kept[k]) != IdOf(chunk[n - 1]) { assert kept[k] in chunk[..n - 1]; }
    }
  }

  lemma UpdatedStep(rows: seq<Prepared>, stamped: set<nat>)
    requires rows != [] && DistinctIds(rows)
    ensures var n := |rows| - 1; var id := IdOf(rows[n]); var before := UpdatedIds(rows[..n], stamped);
      id !in before && UpdatedIds(rows, stamped) == if id in stamped then before + {id} else before
  {
  }

  lemma ProtectedStep(rows: seq<Prepared>, stamped: set<nat>)
    requires rows != []
    ensures var n := |rows| - 1;
      |ProtectedErrors(rows, |rows|, stamped)| ==
      |ProtectedErrors(rows[..n], n, stamped)| + if IdOf(rows[n]) in stamped then 0 else 1
  {
    ProtectedPrefixOf(rows, |rows| - 1, |rows| - 1, stamped);
  }

  lemma {:induction false} UpdatedOrProtected(rows: seq<Prepared>, stamped: set<nat>)
    requires DistinctIds(rows)
    ensures |UpdatedIds(rows, stamped)| + |ProtectedErrors(rows, |rows|, stamped)| == |rows|
  {
    if rows != [] {
      UpdatedOrProtected(rows[..|rows| - 1], stamped);
      UpdatedStep(rows, stamped);
      ProtectedStep(rows, stamped);
    } else { assert UpdatedIds(rows, stamped) == {}; }
  }

  lemma {:induction false} ProtectedPrefixOf(rows: seq<Prepared>, m: nat, n: nat, stamped: set<nat>)
    requires n <= m <= |rows|
    ensures ProtectedErrors(rows[..m], n, stamped) == ProtectedErrors(rows, n, stamped)
  {
    if n > 0 { ProtectedPrefixOf(rows, m, n - 1, stamped); }
  }

  /** Every reported write is one of its chunk's, reported once. */
  ghost predicate OverwritesReported(rows: seq<Prepared>, offset: nat, size: nat, replyAt: nat -> OverwriteReply)
    requires size > 0 && offset <= |rows|
    decreases |rows| - offset
  {
    offset < |rows| ==>
      && Distinct(RejectedBy(replyAt(offset))) &&
         Within(RejectedBy(replyAt(offset)), ChunkEnd(rows, offset, size) - offset)
      && OverwritesReported(rows, ChunkEnd(rows, offset, size), size, replyAt)
  }

  lemma OverwriteChunkAddsUp(chunk: seq<Prepared>, offset: nat, reply: OverwriteReply)
    requires DistinctIds(chunk) && Distinct(RejectedBy(reply)) && Within(RejectedBy(reply), |chunk|)
    ensures Total(OverwriteChunk(chunk, offset, reply)) == |chunk|
  {
    var es := RejectedBy(reply);
    AllTold(es, |chunk|);
    KeptCount(chunk, es, |chunk|);
    KeptIds(chunk, Indexes(es), |chunk|);
    UpdatedOrProtected(Kept(chunk, Indexes(es), |chunk|), reply.stamped);
  }

  /** Overwritten and reported rows are all rows, for any chunk size. */
  lemma {:induction false} OverwritesAddUp(rows: seq<Prepared>, offset: nat, size: nat, replyAt: nat -> OverwriteReply)
    requires size > 0 && offset <= |rows| && DistinctIds(rows) && OverwritesReported(rows, offset, size, replyAt)
    requires OverwriteFrom(rows, offset, size, replyAt).Some?
    ensures Total(OverwriteFrom(rows, offset, size, replyAt).value) == |rows| - offset
    decreases |rows| - offset
  {
    if offset < |rows| {
      var end := ChunkEnd(rows, offset, size);
      OverwriteChunkAddsUp(rows[offset..end], offset, replyAt(offset));
      OverwritesAddUp(rows, end, size, replyAt);
    }
  }

  // ---- Committing ----------------------------------------------------------

  datatype Outcome = Outcome(report: Report, importedRows: nat, overwrittenRows: nat, runtimeErrors: seq<ImportError>,
                             duplicateRows: nat, skipped: seq<ImportError>, completed: bool)

  function CountConcurrent(errors: seq<ImportError>): nat {
    if errors == [] then 0
    else CountConcurrent(errors[..|errors| - 1]) + if errors[|errors| - 1].reason.Concurrent? then 1 else 0
  }

  function OutcomeOf(report: Report, i: Totals, o: Totals): Outcome {
    var errors := i.errors + o.errors;
    Outcome(report, i.written, o.written, errors,
            report.duplicateRows + CountConcurrent(errors), report.errors + errors,
            i.written + o.written == |report.prepared|)
  }

  function Inserts(prepared: seq<Prepared>): (r: seq<Prepared>) {
    if prepared == [] then [] else (if prepared[0].existing.None? then [prepared[0]] else []) + Inserts(prepared[1..])
  }

  function Overwrites(prepared: seq<Prepared>): (r: seq<Prepared>)
    ensures |r| + |Inserts(prepared)| == |prepared|
    ensures forall k :: 0 <= k < |r| ==> r[k] in prepared && r[k].existing.Some?
  {
    if prepared == [] then []
    else (if prepared[0].existing.Some? then [prepared[0]] else []) + Overwrites(prepared[1..])
  }

  function CommitOf(rows: seq<Row>, found: map<Hash, Existing>, overwrite: bool, size: nat,
                    insertReply: nat -> Reply, overwriteReply: nat -> OverwriteReply): Option<Outcome>
    requires size > 0
  {
    var report := ReportOf(rows, found, overwrite);
    match InsertFrom(Inserts(report.prepared), 0, size, insertReply)
    case None => None
    case Some(i) =>
      match OverwriteFrom(Overwrites(report.prepared), 0, size, overwriteReply)
      case None => None
      case Some(o) => Some(OutcomeOf(report, i, o))
  }

  predicate DistinctHashes(rows: seq<Prepared>) { forall j, k :: 0 <= j < k < |rows| ==> rows[j].hash != rows[k].hash }

  lemma {:induction false} UnseenDistinct(rows: seq<Row>, n: nat)
    requires n <= |rows|
    ensures DistinctHashes(Unseen(rows, n))
  {
    if n > 0 {
      UnseenDistinct(rows, n - 1);
      var before := Unseen(rows, n - 1);
      forall k | 0 <= k < |before| ensures UnseenLine(rows, before[k]) && before[k].line < n {
        UnseenAre(rows, n - 1, before[k]);
      }
    }
  }

  lemma {:induction false} ImportableDistinct(candidates: seq<Prepared>, n: nat, found: map<Hash, Existing>,
                                              overwrite: bool)
    requires n <= |candidates| && DistinctHashes(candidates)
    ensures DistinctHashes(Importable(candidates, n, found, overwrite))
    ensures forall p :: p in Importable(candidates, n, found, overwrite) ==>
            exists k :: 0 <= k < n && candidates[k].hash == p.hash
  {
    if n > 0 {
      ImportableDistinct(candidates, n - 1, found, overwrite);
      var before := Importable(candidates, n - 1, found, overwrite);
      forall k | 0 <= k < |before| ensures before[k].hash != candidates[n - 1].hash { assert before[k] in before; }
    }
  }

  lemma {:induction false} OverwritesDistinct(prepared: seq<Prepared>)
    requires DistinctHashes(prepared)
    ensures DistinctHashes(Overwrites(prepared))
  {
    if prepared != [] {
      OverwritesDistinct(prepared[1..]);
      var rest := Overwrites(prepared[1..]);
      forall k | 0 <= k < |rest| ensures rest[k].hash != prepared[0].hash { assert rest[k] in prepared[1..]; }
    }
  }

  /** No item is found under two hashes. */
  ghost predicate OneHashEach(found: map<Hash, Existing>) {
    forall g, h :: g in found && h in found && found[g].id == found[h].id ==> g == h
  }

  lemma OverwriteIds(rows: seq<Row>, found: map<Hash, Existing>, overwrite: bool)
    requires OneHashEach(found)
    ensures DistinctIds(Overwrites(ReportOf(rows, found, overwrite).prepared))
  {
    var candidates := Unseen(rows, |rows|);
    var prepared := ReportOf(rows, found, overwrite).prepared;
    UnseenDistinct(rows, |rows|);
    ImportableDistinct(candidates, |candidates|, found, overwrite);
    OverwritesDistinct(prepared);
    var all := Overwrites(prepared);
    forall k | 0 <= k < |candidates| ensures candidates[k].existing == None { UnseenAre(rows, |rows|, candidates[k]); }
    forall k | 0 <= k < |all| ensures all[k].hash in found && all[k].existing == Some(found[all[k].hash].id) {
      ImportableAre(candidates, |candidates|, found, overwrite, all[k]);
    }
  }

  /** Main result: when no reply lies, imported, overwritten and reported rows are
      the prepared rows, with the skipped ones the whole file, the batch is complete exactly when nothing was reported,
      and the imported count is off by the refusals no reply reported. */
  lemma CommitAddsUp(rows: seq<Row>, found: map<Hash, Existing>, overwrite: bool, size: nat,
                     insertReply: nat -> Reply, overwriteReply: nat -> OverwriteReply, applied: nat -> bool)
    requires size > 0 && OneHashEach(found)
    requires CommitOf(rows, found, overwrite, size, insertReply, overwriteReply).Some?
    requires AllTruthful(Inserts(ReportOf(rows, found, overwrite).prepared), 0, size, insertReply, applied)
    requires OverwritesReported(Overwrites(ReportOf(rows, found, overwrite).prepared), 0, size, overwriteReply)
    ensures var r := CommitOf(rows, found, overwrite, size, insertReply, overwriteReply).value;
      var inserts := Inserts(r.report.prepared);
      && r.importedRows + r.overwrittenRows + |r.runtimeErrors| == |r.report.prepared|
      && r.importedRows + r.overwrittenRows + |r.skipped| == r.report.totalRows
      && (r.completed <==> r.runtimeErrors == [])
      && r.importedRows == CountApplied(applied, 0, |inserts|) + SilentFrom(inserts, 0, size, insertReply, applied)
  {
    var prepared := ReportOf(rows, found, overwrite).prepared;
    OverwriteIds(rows, found, overwrite);
    ReportAddsUp(rows, found, overwrite);
    InsertsAddUp(Inserts(prepared), size, insertReply, applied);
    OverwritesAddUp(Overwrites(prepared), 0, size, overwriteReply);
  }

  lemma PlusPlus(a: nat, e: seq<ImportError>, b: nat, f: seq<ImportError>, more: Option<Totals>)
    ensures Plus(a, e, Plus(b, f, more)) == Plus(a + b, e + f, more)
  {
    if more.Some? { assert e + (f + more.value.errors) == (e + f) + more.value.errors; }
  }

  lemma PlusNothing(more: Option<Totals>)
    ensures Plus(0, [], more) == more
  {
    if more.Some? { assert [] + more.value.errors == more.value.errors; }
  }

  lemma OverwriteStep(rows: seq<Prepared>, offset: nat, end: nat, size: nat, replyAt: nat -> OverwriteReply, t: Totals,
                      done: Totals)
    requires size > 0 && offset < |rows| && end == ChunkEnd(rows, offset, size) && replyAt(offset).failed != Some([])
    requires t == OverwriteChunk(rows[offset..end], offset, replyAt(offset))
    ensures Plus(done.written, done.errors, OverwriteFrom(rows, offset, size, replyAt)) ==
            Plus(done.written + t.written, done.errors + t.errors, OverwriteFrom(rows, end, size, replyAt))
  {
    PlusPlus(done.written, done.errors, t.written, t.errors, OverwriteFrom(rows, end, size, replyAt));
  }

  /** One more chunk of the loop. */
  lemma InsertNext(rows: seq<Prepared>, offset: nat, size: nat, replyAt: nat -> Reply, written: nat,
                   errors: seq<ImportError>)
    requires size > 0 && offset < |rows| && !Throws(replyAt(offset))
    ensures var end := ChunkEnd(rows, offset, size);
      var more := ReplyErrors(replyAt(offset), rows[offset..end], offset);
      Plus(written, errors, InsertFrom(rows, offset, size, replyAt)) ==
      Plus(written + Imported(replyAt(offset), end - offset), errors + more, InsertFrom(rows, end, size, replyAt))
  {
    var end := ChunkEnd(rows, offset, size);
    PlusPlus(written, errors, Imported(replyAt(offset), end - offset),
             ReplyErrors(replyAt(offset), rows[offset..end], offset), InsertFrom(rows, end, size, replyAt));
  }

  method InsertAll(inserts: seq<Prepared>, replyAt: nat -> Reply) returns (r: Option<Totals>)
    ensures r == InsertFrom(inserts, 0, CHUNK, replyAt)
  {
    var importedRows: nat, runtimeErrors: seq<ImportError>, offset: nat := 0, [], 0;
    PlusNothing(InsertFrom(inserts, 0, CHUNK, replyAt));
    while offset < |inserts|
      invariant offset <= |inserts|
      invariant InsertFrom(inserts, 0, CHUNK, replyAt) ==
                Plus(importedRows, runtimeErrors, InsertFrom(inserts, offset, CHUNK, replyAt))
    {
      var end := ChunkEnd(inserts, offset, CHUNK);
      var chunk, reply := inserts[offset..end], replyAt(offset);
      if Throws(reply) { return None; }
      InsertNext(inserts, offset, CHUNK, replyAt, importedRows, runtimeErrors);
      importedRows := importedRows + Imported(reply, |chunk|);
      runtimeErrors := runtimeErrors + ReplyErrors(reply, chunk, offset);
      offset := end;
    }
    assert runtimeErrors + [] == runtimeErrors;
    r := Some(Totals(importedRows, runtimeErrors));
  }

  method OverwriteAll(overwrites: seq<Prepared>, replyAt: nat -> OverwriteReply) returns (r: Option<Totals>)
    ensures r == OverwriteFrom(overwrites, 0, CHUNK, replyAt)
  {
    var overwrittenRows: nat, runtimeErrors: seq<ImportError>, offset: nat := 0, [], 0;
    PlusNothing(OverwriteFrom(overwrites, 0, CHUNK, replyAt));
    while offset < |overwrites|
      invariant offset <= |overwrites|
      invariant OverwriteFrom(overwrites, 0, CHUNK, replyAt) ==
                Plus(overwrittenRows, runtimeErrors, OverwriteFrom(overwrites, offset, CHUNK, replyAt))
    {
      var end := ChunkEnd(overwrites, offset, CHUNK);
      var reply := replyAt(offset);
      if reply.failed == Some([]) { return None; }
      var t := OverwriteChunk(overwrites[offset..end], offset, reply);
      OverwriteStep(overwrites, offset, end, CHUNK, replyAt, t, Totals(overwrittenRows, runtimeErrors));
      overwrittenRows := overwrittenRows + t.written;
      runtimeErrors := runtimeErrors + t.errors;
      offset := end;
    }
    assert runtimeErrors + [] == runtimeErrors;
    r := Some(Totals(overwrittenRows, runtimeErrors));
  }

  method Commit(rows: seq<Row>, found: map<Hash, Existing>, overwrite: bool,
                insertReply: nat -> Reply, overwriteReply: nat -> OverwriteReply) returns (r: Option<Outcome>)
    ensures r == CommitOf(rows, found, overwrite, CHUNK, insertReply, overwriteReply)
  {
    var report := Prepare(rows, found, overwrite);
    var inserted := InsertAll(Inserts(report.prepared), insertReply);
    if inserted.None? { return None; }
    var overwritten := OverwriteAll(Overwrites(report.prepared), overwriteReply);
    if overwritten.None? { return None; }
    r := Some(OutcomeOf(report, inserted.value, overwritten.value));
  }
}
